/** The text of a lock file: its lines, what makes a line a pin, and canonical package names. */
module LockText {
  import opened Prelude

  // ---------------------------------------------------------------- characters

  /** str.isspace, and `\s` in a pattern. */
  predicate IsSpace(c: char) {
    var n := c as int;
    || 9 <= n <= 13 || 28 <= n <= 32 || n == 0x85 || n == 0xA0 || n == 0x1680 || 0x2000 <= n <= 0x200A
    || n == 0x2028 || n == 0x2029 || n == 0x202F || n == 0x205F || n == 0x3000
  }

  /** Where splitlines breaks. */
  predicate IsBreak(c: char) {
    var n := c as int;
    10 <= n <= 13 || 28 <= n <= 30 || n == 0x85 || n == 0x2028 || n == 0x2029
  }

  predicate IsUpper(c: char) {
    'A' <= c <= 'Z'
  }

  predicate IsSeparator(c: char) {
    c == '-' || c == '_' || c == '.'
  }

  predicate NameChar(c: char) {
    IsUpper(c) || 'a' <= c <= 'z' || '0' <= c <= '9' || IsSeparator(c)
  }

  predicate VersionChar(c: char) {
    !IsSpace(c) && c != ';' && c != '\\'
  }

  predicate All(p: char -> bool, text: string) {
    forall i :: 0 <= i < |text| ==> p(text[i])
  }

  /** Length of the longest prefix of such characters. */
  function Span(p: char -> bool, text: string): (n: nat)
    ensures n <= |text| && All(p, text[..n]) && (n < |text| ==> !p(text[n]))
  {
    if text == "" || !p(text[0]) then 0
    else
      var n := Span(p, text[1..]);
      assert text[..n + 1] == [text[0]] + text[1..][..n];
      n + 1
  }

  lemma {:induction false} SpanIs(p: char -> bool, text: string, n: nat)
    requires n <= |text| && All(p, text[..n]) && (n < |text| ==> !p(text[n]))
    ensures Span(p, text) == n
  {
    if n > 0 {
      assert p(text[..n][0]);
      assert text[1..][..n - 1] == text[..n][1..];
      SpanIs(p, text[1..], n - 1);
    }
  }

  // ---------------------------------------------------------------- lines

  function NotBreak(): char -> bool {
    c => !IsBreak(c)
  }

  /** str.splitlines; a carriage return and a line feed are one break. */
  function Lines(text: string): seq<string>
    decreases |text|
  {
    if text == "" then []
    else
      var n := Span(NotBreak(), text);
      if n == |text| then [text]
      else
        var width := if text[n] == '\r' && n + 1 < |text| && text[n + 1] == '\n' then 2 else 1;
        [text[..n]] + Lines(text[n + width..])
  }

  function Unlines(lines: seq<string>): string {
    if lines == [] then "" else lines[0] + "\n" + Unlines(lines[1..])
  }

  /** Lines that end in a line feed are the lines that were written. */
  lemma {:induction false} LinesReadBack(lines: seq<string>)
    requires forall i :: 0 <= i < |lines| ==> All(NotBreak(), lines[i])
    ensures Lines(Unlines(lines)) == lines
    decreases |lines|
  {
    if lines != [] {
      hide All;
      LinesReadBack(lines[1..]);
      FirstLine(lines[0], Unlines(lines[1..]));
      assert lines == [lines[0]] + lines[1..];
    }
  }

  lemma FirstLine(first: string, rest: string)
    requires All(NotBreak(), first)
    ensures Lines(first + "\n" + rest) == [first] + Lines(rest)
  {
    var text := first + "\n" + rest;
    assert text[..|first|] == first && text[|first|] == '\n' && text[|first| + 1..] == rest;
    SpanIs(NotBreak(), text, |first|);
  }

  /** A line break: one of the breaking characters, or a carriage return with its line feed. */
  predicate Breaks(brk: string, rest: string) {
    || brk == "\r\n"
    || (|brk| == 1 && IsBreak(brk[0]) && !(brk == "\r" && rest != "" && rest[0] == '\n'))
  }

  /** A text without breaks is one line, and a break ends a line; nothing else does. */
  lemma LinesSpec(line: string, brk: string, rest: string)
    requires All(NotBreak(), line)
    ensures Lines(line) == if line == "" then [] else [line]
    ensures Breaks(brk, rest) ==> Lines(line + brk + rest) == [line] + Lines(rest)
  {
    assert line[..|line|] == line;
    SpanIs(NotBreak(), line, |line|);
    if Breaks(brk, rest) {
      var text := line + brk + rest;
      assert text[..|line|] == line && text[|line|] == brk[0] && text[|line| + |brk|..] == rest;
      SpanIs(NotBreak(), text, |line|);
      if |brk| == 1 && rest != "" { assert text[|line| + 1] == rest[0]; }
    }
  }

  /** The classes of characters by their code points. */
  lemma CharacterClasses(c: char)
    ensures var n := c as int;
      && (IsBreak(c) <==> n in {0x0A, 0x0B, 0x0C, 0x0D, 0x1C, 0x1D, 0x1E, 0x85, 0x2028, 0x2029})
      && (IsSpace(c) <==>
            || n in {0x09, 0x0A, 0x0B, 0x0C, 0x0D, 0x1C, 0x1D, 0x1E, 0x1F, 0x20, 0x85, 0xA0, 0x1680, 0x2028, 0x2029}
            || n in {0x2000, 0x2001, 0x2002, 0x2003, 0x2004, 0x2005, 0x2006, 0x2007, 0x2008, 0x2009, 0x200A}
            || n in {0x202F, 0x205F, 0x3000})
      && (NameChar(c) <==> 48 <= n <= 57 || 65 <= n <= 90 || 97 <= n <= 122 || n in {45, 46, 95})
      && (VersionChar(c) <==> !IsSpace(c) && n != 59 && n != 92)
  {
  }

  // ---------------------------------------------------------------- canonical names

  function Lower(c: char): char {
    if IsUpper(c) then c + 32 as char else c
  }

  /** canonicalize_name: runs of separators become one dash, letters become lower case. */
  function Canonical(name: string): string
    decreases |name|
  {
    if name == "" then ""
    else if IsSeparator(name[0]) then "-" + Canonical(name[Span(IsSeparator, name)..])
    else [Lower(name[0])] + Canonical(name[1..])
  }

  predicate IsCanonical(name: string) {
    && (forall i :: 0 <= i < |name| ==> !IsUpper(name[i]) && (IsSeparator(name[i]) ==> name[i] == '-'))
    && (forall i :: 0 <= i < |name| - 1 ==> !(name[i] == '-' && name[i + 1] == '-'))
  }

  /** The result is canonical, and begins with a dash exactly when the name begins with a separator. */
  lemma {:induction false} CanonicalIsCanonical(name: string)
    ensures IsCanonical(Canonical(name)) && (Canonical(name) == "" <==> name == "")
    ensures name != "" ==> (Canonical(name)[0] == '-' <==> IsSeparator(name[0]))
    decreases |name|
  {
    if name != "" {
      if IsSeparator(name[0]) {
        var rest := name[Span(IsSeparator, name)..];
        CanonicalIsCanonical(rest);
        PrependCanonical('-', Canonical(rest));
      } else {
        CanonicalIsCanonical(name[1..]);
        PrependCanonical(Lower(name[0]), Canonical(name[1..]));
      }
    }
  }

  lemma PrependCanonical(c: char, rest: string)
    requires IsCanonical(rest) && !IsUpper(c) && (IsSeparator(c) ==> c == '-')
    requires (c == '-' && rest != "" ==> rest[0] != '-')
    ensures IsCanonical([c] + rest)
  {
    var name := [c] + rest;
    forall i | 0 <= i < |name| ensures !IsUpper(name[i]) && (IsSeparator(name[i]) ==> name[i] == '-') {
      if i > 0 { assert name[i] == rest[i - 1]; }
    }
    forall i | 0 <= i < |name| - 1 ensures !(name[i] == '-' && name[i + 1] == '-') {
      assert name[i + 1] == rest[i];
      if i > 0 { assert name[i] == rest[i - 1]; }
    }
  }

  lemma RunAtStart(run: string, after: string)
    requires run != "" && All(IsSeparator, run) && (after != "" ==> !IsSeparator(after[0]))
    ensures Canonical(run + after) == "-" + Canonical(after)
  {
    var name := run + after;
    assert name[..|run|] == run && name[|run|..] == after && name[0] == run[0];
    SpanIs(IsSeparator, name, |run|);
  }

  lemma LetterAtStart(name: string)
    requires name != "" && !IsSeparator(name[0])
    ensures Canonical(name) == [Lower(name[0])] + Canonical(name[1..])
  {
  }

  /** A run of separators, whatever it is made of, is one dash. */
  lemma {:induction false} RunIsADash(before: string, run: string, after: string)
    requires run != "" && All(IsSeparator, run)
    requires before != "" ==> !IsSeparator(before[|before| - 1])
    requires after != "" ==> !IsSeparator(after[0])
    ensures Canonical(before + run + after) == Canonical(before) + "-" + Canonical(after)
    decreases |before|
  {
    hide Canonical, IsSeparator, Span, All;
    var name := before + run + after;
    if before == "" {
      RunAtStart(run, after);
      assert name == run + after;
      EmptyIsCanonical();
    } else if IsSeparator(before[0]) {
      var n := Span(IsSeparator, before);
      SeparatorsEnd(before, n);
      var (first, rest) := (before[..n], before[n..]);
      RunIsADash(rest, run, after);
      RunAtStart(first, rest);
      RunAtStart(first, rest + run + after);
      assert before == first + rest && name == first + (rest + run + after);
    } else {
      LetterAtStart(before);
      LetterAtStart(name);
      assert name[1..] == before[1..] + run + after;
      RunIsADash(before[1..], run, after);
    }
  }

  lemma EmptyIsCanonical()
    ensures Canonical("") == ""
  {
  }

  lemma SeparatorsEnd(before: string, n: nat)
    requires before != "" && IsSeparator(before[0]) && !IsSeparator(before[|before| - 1])
    requires n == Span(IsSeparator, before)
    ensures 0 < n < |before| && before[..n] != "" && All(IsSeparator, before[..n]) && !IsSeparator(before[n..][0])
  {
    assert before[..|before|] == before && before[|before| - 1] in before;
  }

  /** Outside separators only capitals change, to the letters 32 code points on. */
  lemma {:induction false} WordIsLowered(word: string)
    requires forall i :: 0 <= i < |word| ==> !IsSeparator(word[i])
    ensures |Canonical(word)| == |word|
    ensures forall i :: 0 <= i < |word| ==>
      Canonical(word)[i] as int == word[i] as int + if 65 <= word[i] as int <= 90 then 32 else 0
  {
    if word != "" {
      WordIsLowered(word[1..]);
      assert forall i :: 1 <= i < |word| ==> word[i] == word[1..][i - 1];
    }
  }

  /** Canonical names stay as they are, so two spellings are one package exactly when their canonical forms agree. */
  lemma {:induction false} CanonicalStays(name: string)
    requires IsCanonical(name)
    ensures Canonical(name) == name
    decreases |name|
  {
    if name != "" {
      var rest := name[1..];
      assert IsCanonical(rest) by {
        assert forall i :: 0 <= i < |rest| ==> rest[i] == name[i + 1];
      }
      CanonicalStays(rest);
      assert name == [name[0]] + rest;
      if IsSeparator(name[0]) { SpanIs(IsSeparator, name, 1) by { assert name[..1] == "-"; } }
    }
  }

  // ---------------------------------------------------------------- pins

  datatype Line = Skipped | Pinned(name: string, version: string) | Malformed(text: string)

  /** One round of the parsing loop, up to the dictionary. */
  function Classify(line: string): Line {
    var bare := line[Span(IsSpace, line)..];
    if bare == "" || StartsWith(bare, "#") || StartsWith(bare, "--") then Skipped
    else if IsSpace(line[0]) then Skipped
    else
      var n := Span(NameChar, line);
      if n == 0 || !StartsWith(line[n..], "==") then Malformed(line)
      else
        var v := Span(VersionChar, line[n + 2..]);
        if v == 0 then Malformed(line) else Pinned(Canonical(line[..n]), line[n + 2..n + 2 + v])
  }

  /** A name, two equal signs and a version up to a space, a semicolon or a backslash; no option line. */
  predicate IsPin(line: string, raw: string, version: string, rest: string) {
    && line == raw + "==" + version + rest
    && raw != "" && All(NameChar, raw) && !StartsWith(raw, "--")
    && version != "" && All(VersionChar, version) && (rest != "" ==> !VersionChar(rest[0]))
  }

  ghost predicate PinLine(line: string, name: string, version: string) {
    exists raw, rest :: IsPin(line, raw, version, rest) && name == Canonical(raw)
  }

  lemma ClassifyIsPin(line: string)
    requires Classify(line).Pinned?
    ensures PinLine(line, Classify(line).name, Classify(line).version)
  {
    var n := Span(NameChar, line);
    StartsWithin(line[n..], "==");
    hide NameChar, VersionChar, Canonical, IsSpace, Span, All, IsPin, StartsWith;
    var v := Span(VersionChar, line[n + 2..]);
    NotStripped(line);
    CutIsPin(line, n, v);
    assert IsPin(line, line[..n], line[n + 2..n + 2 + v], line[n + 2 + v..]);
  }

  lemma StartsWithin(text: string, prefix: string)
    ensures StartsWith(text, prefix) ==> |prefix| <= |text|
  {
  }

  /** A line cut into name, equal signs, version and the rest. */
  lemma CutIsPin(line: string, n: nat, v: nat)
    requires n == Span(NameChar, line) > 0 && StartsWith(line[n..], "==") && !StartsWith(line, "--")
    requires v == Span(VersionChar, line[n + 2..]) > 0
    ensures IsPin(line, line[..n], line[n + 2..n + 2 + v], line[n + 2 + v..])
  {
    hide NameChar, VersionChar, Span, All;
    assert line[n..][..2] == "==";
    assert line == line[..n] + line[n..][..2] + line[n + 2..n + 2 + v] + line[n + 2 + v..];
    assert line[n + 2..][..v] == line[n + 2..n + 2 + v];
    assert n >= 2 ==> line[..n][..2] == line[..2];
  }

  lemma NotStripped(line: string)
    requires line != "" && !IsSpace(line[0])
    ensures line[Span(IsSpace, line)..] == line
  {
    SpanIs(IsSpace, line, 0);
  }

  lemma PinName(line: string, raw: string, rest: string)
    requires line == raw + "==" + rest && raw != "" && All(NameChar, raw)
    ensures Span(NameChar, line) == |raw| && line[..|raw|] == raw
    ensures StartsWith(line[|raw|..], "==") && line[|raw| + 2..] == rest
    ensures !IsSpace(line[0])
  {
    var n := |raw|;
    assert line[..n] == raw && line[n..] == "==" + rest && line[n] == '=';
    assert line[n..][..2] == "==";
    assert NameChar(raw[0]) && line[0] == raw[0];
    SpanIs(NameChar, line, n);
  }

  lemma PinVersion(text: string, version: string, rest: string)
    requires text == version + rest && All(VersionChar, version) && (rest != "" ==> !VersionChar(rest[0]))
    ensures Span(VersionChar, text) == |version| && text[..|version|] == version
  {
    assert text[..|version|] == version;
    SpanIs(VersionChar, text, |version|);
  }

  lemma PinIsClassified(line: string, raw: string, version: string, rest: string)
    requires IsPin(line, raw, version, rest)
    ensures Classify(line) == Pinned(Canonical(raw), version)
  {
    hide IsSpace, NameChar, VersionChar, Span, Canonical, StartsWith, All, Classify;
    var tail := version + rest;
    assert line == raw + "==" + tail;
    PinName(line, raw, tail);
    PinVersion(tail, version, rest);
    NotStripped(line);
    NoOption(line, raw, tail);
    assert line[|raw| + 2..|raw| + 2 + |version|] == tail[..|version|];
    ReadAsPin(line, |raw|, |version|);
  }

  lemma ReadAsPin(line: string, n: nat, v: nat)
    requires line != "" && line[Span(IsSpace, line)..] == line && !IsSpace(line[0])
    requires !StartsWith(line, "#") && !StartsWith(line, "--")
    requires n == Span(NameChar, line) && n > 0 && StartsWith(line[n..], "==")
    requires v == Span(VersionChar, line[n + 2..]) && v > 0
    ensures Classify(line) == Pinned(Canonical(line[..n]), line[n + 2..n + 2 + v])
  {
    hide IsSpace, NameChar, VersionChar, Span, Canonical;
  }

  lemma NoOption(line: string, raw: string, rest: string)
    requires line == raw + "==" + rest && raw != "" && All(NameChar, raw) && !StartsWith(raw, "--")
    ensures !StartsWith(line, "#") && !StartsWith(line, "--")
  {
    assert line[0] == raw[0] && NameChar(raw[0]);
    if |raw| == 1 {
      assert line[1] == '=';
    } else {
      assert raw[..2] == line[..2];
    }
  }

  /** The parser reads a line as a pin exactly when it is one, with the name in canonical form. */
  lemma ClassifySpec(line: string, name: string, version: string)
    ensures Classify(line) == Pinned(name, version) <==> PinLine(line, name, version)
  {
    hide Classify, IsPin, Canonical;
    if Classify(line) == Pinned(name, version) { ClassifyIsPin(line); }
    if PinLine(line, name, version) {
      var raw, rest :| IsPin(line, raw, version, rest) && name == Canonical(raw);
      PinIsClassified(line, raw, version, rest);
    }
  }

  /** From position `k` on, after nothing but spaces, the line is empty, a comment or an option. */
  predicate EmptyFrom(line: string, k: nat)
    requires k <= |line|
  {
    && All(IsSpace, line[..k])
    && (k < |line| ==> !IsSpace(line[k]))
    && (k == |line| || line[k] == '#' || StartsWith(line[k..], "--"))
  }

  /** A blank line, a comment, an option, or an indented line. */
  predicate PassedOver(line: string) {
    (exists k :: 0 <= k <= |line| && EmptyFrom(line, k)) || (line != "" && IsSpace(line[0]))
  }

  lemma EmptyFromSpan(line: string)
    ensures (exists k :: 0 <= k <= |line| && EmptyFrom(line, k)) <==> EmptyFrom(line, Span(IsSpace, line))
  {
    if k :| 0 <= k <= |line| && EmptyFrom(line, k) { SpanIs(IsSpace, line, k); }
  }

  lemma HashStart(text: string)
    ensures StartsWith(text, "#") <==> text != "" && text[0] == '#'
  {
    if text != "" { assert text[..1] == [text[0]]; }
  }

  /** The parser skips exactly the lines that are passed over. */
  lemma ClassifySkips(line: string)
    ensures Classify(line).Skipped? <==> PassedOver(line)
  {
    var k := Span(IsSpace, line);
    EmptyFromSpan(line);
    HashStart(line[k..]);
    hide NameChar, VersionChar, Canonical;
  }

  /** And refuses exactly those that are neither passed over nor a pin. */
  lemma ClassifyRefuses(line: string)
    ensures Classify(line).Malformed? <==> !PassedOver(line) && forall name, version :: !PinLine(line, name, version)
  {
    hide Classify, PassedOver, PinLine;
    ClassifySkips(line);
    forall name, version ensures Classify(line) == Pinned(name, version) <==> PinLine(line, name, version) {
      ClassifySpec(line, name, version);
    }
    if Classify(line).Pinned? { assert PinLine(line, Classify(line).name, Classify(line).version); }
  }
}

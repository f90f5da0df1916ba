/**
 * str.replace on generated source text: where it acts when a text is put together from parts,
 * when it changes nothing, and that it commutes with escaping.
 */
module TextReplace {
  import opened Prelude

  /** A template marker: two underscores, a capital, and nothing but capitals and underscores. */
  predicate MarkerChar(c: char) {
    c == '_' || 'A' <= c <= 'Z'
  }

  predicate Marker(m: string) {
    |m| >= 3 && m[0] == '_' && m[1] == '_' && 'A' <= m[2] <= 'Z' && forall i :: 0 <= i < |m| ==> MarkerChar(m[i])
  }

  /** str.replace: from left to right, never looking at what was put in. */
  function Replace(text: string, m: string, by_: string): string
    requires m != ""
    decreases |text|
  {
    if |text| < |m| then text
    else if StartsWith(text, m) then by_ + Replace(text[|m|..], m, by_)
    else [text[0]] + Replace(text[1..], m, by_)
  }

  predicate Occurs(text: string, m: string)
    requires m != ""
    decreases |text|
  {
    |text| >= |m| && (StartsWith(text, m) || Occurs(text[1..], m))
  }

  // ---------------------------------------------------------------- when nothing changes

  /** Putting in more than is taken out lengthens the text, if there is anything to replace. */
  lemma {:induction false} ReplaceLengthens(text: string, m: string, by_: string)
    requires m != "" && |by_| > |m|
    ensures |Replace(text, m, by_)| >= |text| && (Occurs(text, m) ==> |Replace(text, m, by_)| > |text|)
    decreases |text|
  {
    if |text| >= |m| {
      if StartsWith(text, m) {
        ReplaceLengthens(text[|m|..], m, by_);
      } else {
        ReplaceLengthens(text[1..], m, by_);
      }
    }
  }

  lemma {:induction false} ReplaceShortens(text: string, m: string, by_: string)
    requires m != "" && |by_| < |m|
    ensures |Replace(text, m, by_)| <= |text| && (Occurs(text, m) ==> |Replace(text, m, by_)| < |text|)
    decreases |text|
  {
    if |text| >= |m| {
      if StartsWith(text, m) {
        ReplaceShortens(text[|m|..], m, by_);
      } else {
        ReplaceShortens(text[1..], m, by_);
      }
    }
  }

  lemma {:induction false} ReplaceNothing(text: string, m: string, by_: string)
    requires m != "" && (!Occurs(text, m) || by_ == m)
    ensures Replace(text, m, by_) == text
    decreases |text|
  {
    if |text| >= |m| {
      if StartsWith(text, m) {
        ReplaceNothing(text[|m|..], m, by_);
        assert text == m + text[|m|..];
      } else {
        ReplaceNothing(text[1..], m, by_);
        assert text == [text[0]] + text[1..];
      }
    }
  }

  lemma {:induction false} SameLengthChanges(text: string, m: string, by_: string)
    requires m != "" && |by_| == |m| && Occurs(text, m) && Replace(text, m, by_) == text
    ensures by_ == m
    decreases |text|
  {
    if StartsWith(text, m) {
      assert text[..|m|] == by_;
    } else {
      assert Replace(text, m, by_)[1..] == Replace(text[1..], m, by_);
      SameLengthChanges(text[1..], m, by_);
    }
  }

  /** A replacement changes nothing exactly when there is nothing to replace, or the thing itself is put in. */
  lemma ReplaceChanges(text: string, m: string, by_: string)
    requires m != ""
    ensures Replace(text, m, by_) == text <==> !Occurs(text, m) || by_ == m
  {
    if !Occurs(text, m) || by_ == m { ReplaceNothing(text, m, by_); }
    else if |by_| > |m| { ReplaceLengthens(text, m, by_); }
    else if |by_| < |m| { ReplaceShortens(text, m, by_); }
    else if Replace(text, m, by_) == text { SameLengthChanges(text, m, by_); }
  }

  // ---------------------------------------------------------------- texts put together from parts

  /** No marker can lie across the seam. */
  predicate Apart(a: string, b: string) {
    a == "" || b == "" || !MarkerChar(a[|a| - 1]) || !MarkerChar(b[0])
  }

  lemma PrefixChars(text: string, m: string)
    ensures StartsWith(text, m) ==> |m| <= |text| && forall i :: 0 <= i < |m| ==> m[i] == text[i]
  {
    if StartsWith(text, m) { assert m == text[..|m|]; }
  }

  lemma StartsInFirst(a: string, b: string, m: string)
    requires Marker(m) && a != "" && Apart(a, b)
    ensures StartsWith(a + b, m) <==> StartsWith(a, m)
  {
    if |a| >= |m| {
      assert (a + b)[..|m|] == a[..|m|];
    } else if b != "" {
      PrefixChars(a + b, m);
      assert (a + b)[|a| - 1] == a[|a| - 1] && (a + b)[|a|] == b[0];
    }
  }

  lemma {:induction false} ReplaceJoin(a: string, b: string, m: string, by_: string)
    requires Marker(m) && Apart(a, b)
    ensures Replace(a + b, m, by_) == Replace(a, m, by_) + Replace(b, m, by_)
    decreases |a|
  {
    assert m != "" && |m| > 1;
    hide Marker, MarkerChar;
    if a == "" {
      assert a + b == b;
    } else {
      StartsInFirst(a, b, m);
      if StartsWith(a, m) {
        assert |m| <= |a| by { PrefixChars(a, m); }
        assert (a + b)[|m|..] == a[|m|..] + b;
        ReplaceJoin(a[|m|..], b, m, by_);
      } else {
        assert (a + b)[1..] == a[1..] + b;
        ReplaceJoin(a[1..], b, m, by_);
        assert |a + b| < |m| ==> Replace(b, m, by_) == b;
      }
    }
  }

  lemma {:induction false} OccursJoin(a: string, b: string, m: string)
    requires Marker(m) && Apart(a, b)
    ensures Occurs(a + b, m) <==> Occurs(a, m) || Occurs(b, m)
    decreases |a|
  {
    if a == "" {
      assert a + b == b;
    } else {
      StartsInFirst(a, b, m);
      assert (a + b)[1..] == a[1..] + b;
      OccursJoin(a[1..], b, m);
    }
  }

  /** A part of a text holds no more than the text. */
  lemma {:induction false} OccursInMore(a: string, b: string, c: string, m: string)
    requires m != "" && Occurs(b, m)
    ensures Occurs(a + b + c, m)
    decreases |a| + |b|
  {
    var text := a + b + c;
    if a != "" {
      assert text[1..] == a[1..] + b + c;
      OccursInMore(a[1..], b, c, m);
    } else if StartsWith(b, m) {
      assert text[..|m|] == b[..|m|];
    } else {
      assert text[1..] == "" + b[1..] + c;
      OccursInMore("", b[1..], c, m);
    }
  }

  // ---------------------------------------------------------------- parts no marker starts in

  /** No capital, and no underscore at the end: a marker cannot begin here. */
  predicate Clean(text: string) {
    && (forall i :: 0 <= i < |text| ==> !('A' <= text[i] <= 'Z'))
    && (text != "" ==> text[|text| - 1] != '_')
  }

  lemma NoStartInClean(text: string, rest: string, m: string)
    requires Marker(m) && Clean(text) && text != ""
    ensures !StartsWith(text + rest, m)
  {
    PrefixChars(text + rest, m);
    assert (text + rest)[0] == text[0];
    if |text| >= 2 { assert (text + rest)[1] == text[1]; }
    if |text| >= 3 { assert (text + rest)[2] == text[2]; }
  }

  lemma StepOver(c: char, rest: string, m: string, by_: string)
    requires Marker(m) && !StartsWith([c] + rest, m)
    ensures Replace([c] + rest, m, by_) == [c] + Replace(rest, m, by_)
    ensures Occurs([c] + rest, m) <==> Occurs(rest, m)
  {
    assert ([c] + rest)[1..] == rest;
    hide Marker;
  }

  lemma Regroup(text: string, more: string)
    requires text != ""
    ensures text + more == [text[0]] + (text[1..] + more)
  {
  }

  lemma CleanTail(text: string)
    requires Clean(text) && text != ""
    ensures Clean(text[1..])
  {
  }

  lemma {:induction false} SkipClean(text: string, rest: string, m: string, by_: string)
    requires Marker(m) && Clean(text)
    ensures Replace(text + rest, m, by_) == text + Replace(rest, m, by_)
    ensures Occurs(text + rest, m) <==> Occurs(rest, m)
    decreases |text|
  {
    assert m != "";
    if text == "" {
      hide Marker, Replace, Occurs, Clean;
      assert text + rest == rest;
      assert text + Replace(rest, m, by_) == Replace(rest, m, by_);
    } else {
      NoStartInClean(text, rest, m);
      CleanTail(text);
      hide Marker, Replace, Occurs, Clean, StartsWith;
      Regroup(text, rest);
      StepOver(text[0], text[1..] + rest, m, by_);
      SkipClean(text[1..], rest, m, by_);
      Regroup(text, Replace(rest, m, by_));
    }
  }

  // ---------------------------------------------------------------- escaping

  /** Marker characters stand for themselves; what stands for another character cannot begin or continue a marker. */
  ghost predicate Faithful(esc: char -> string) {
    forall c ::
      if MarkerChar(c) then esc(c) == [c]
      else esc(c) != "" && !MarkerChar(esc(c)[0]) && '_' !in esc(c)
  }

  function Encode(esc: char -> string, text: string): string {
    if text == "" then "" else esc(text[0]) + Encode(esc, text[1..])
  }

  lemma {:induction false} EncodeStarts(esc: char -> string, text: string, m: string)
    requires Faithful(esc) && forall i :: 0 <= i < |m| ==> MarkerChar(m[i])
    ensures StartsWith(Encode(esc, text), m) <==> StartsWith(text, m)
    ensures StartsWith(text, m) ==> Encode(esc, text) == m + Encode(esc, text[|m|..])
    decreases |m|
  {
    if m == "" {
      assert text[..0] == "" && Encode(esc, text)[..0] == "";
    } else if text != "" {
      var (encoded, tail) := (Encode(esc, text), Encode(esc, text[1..]));
      assert MarkerChar(m[0]);
      if text[0] == m[0] {
        assert encoded == [text[0]] + tail && encoded[1..] == tail;
        EncodeStarts(esc, text[1..], m[1..]);
        StartsStep(text, m);
        StartsStep(encoded, m);
        if StartsWith(text, m) { assert text[1..][|m[1..]|..] == text[|m|..]; }
      } else {
        assert encoded[0] == esc(text[0])[0];
        StartsStep(text, m);
        StartsStep(encoded, m);
      }
    }
  }

  lemma StartsStep(text: string, m: string)
    requires text != "" && m != ""
    ensures StartsWith(text, m) <==> text[0] == m[0] && StartsWith(text[1..], m[1..])
  {
    if |text| >= |m| {
      assert text[..|m|] == [text[0]] + text[1..][..|m| - 1];
      assert m == [m[0]] + m[1..];
    }
  }

  lemma {:induction false} SkipEscape(text: string, rest: string, m: string, by_: string)
    requires Marker(m) && '_' !in text
    ensures Replace(text + rest, m, by_) == text + Replace(rest, m, by_)
    ensures Occurs(text + rest, m) <==> Occurs(rest, m)
    decreases |text|
  {
    if text == "" {
      assert text + rest == rest;
    } else {
      assert text[0] != '_' && (text + rest)[0] == text[0];
      assert (text + rest)[1..] == text[1..] + rest;
      SkipEscape(text[1..], rest, m, by_);
      assert text == [text[0]] + text[1..];
    }
  }

  lemma {:induction false} EncodeJoin(esc: char -> string, a: string, b: string)
    ensures Encode(esc, a + b) == Encode(esc, a) + Encode(esc, b)
    decreases |a|
  {
    if a == "" {
      assert a + b == b;
    } else {
      assert (a + b)[1..] == a[1..] + b;
      EncodeJoin(esc, a[1..], b);
    }
  }

  /** Replacing in an escaped text is escaping the replaced text, if what is put in needs no escape. */
  lemma {:induction false} EncodeReplace(esc: char -> string, text: string, m: string, by_: string)
    requires Faithful(esc) && Marker(m) && Encode(esc, by_) == by_
    ensures Replace(Encode(esc, text), m, by_) == Encode(esc, Replace(text, m, by_))
    decreases |text|
  {
    hide Faithful, Marker;
    EncodeStartsMarker(esc, text, m);
    if StartsWith(text, m) {
      EncodeReplace(esc, text[|m|..], m, by_) by { assert m != "" by { MarkerIsText(m); } }
      EncodeJoin(esc, by_, Replace(text[|m|..], m, by_));
      assert (m + Encode(esc, text[|m|..]))[|m|..] == Encode(esc, text[|m|..]);
    } else if text != "" {
      EncodeReplace(esc, text[1..], m, by_);
      EncodeStep(esc, text, m, by_);
      ShortEncodes(esc, text, m, by_);
    } else {
      MarkerIsText(m);
    }
  }

  lemma MarkerIsText(m: string)
    requires Marker(m)
    ensures m != ""
  {
  }

  lemma EncodeStartsMarker(esc: char -> string, text: string, m: string)
    requires Faithful(esc) && Marker(m)
    ensures m != "" && (StartsWith(Encode(esc, text), m) <==> StartsWith(text, m))
    ensures StartsWith(text, m) ==> Encode(esc, text) == m + Encode(esc, text[|m|..])
  {
    EncodeStarts(esc, text, m);
  }

  /** One character of the text is passed over. */
  lemma EncodeStep(esc: char -> string, text: string, m: string, by_: string)
    requires Faithful(esc) && Marker(m) && text != "" && !StartsWith(text, m)
    ensures Replace(Encode(esc, text), m, by_) == esc(text[0]) + Replace(Encode(esc, text[1..]), m, by_)
    ensures Occurs(Encode(esc, text), m) <==> Occurs(Encode(esc, text[1..]), m)
  {
    var (first, tail) := (esc(text[0]), Encode(esc, text[1..]));
    if MarkerChar(text[0]) {
      EncodeStarts(esc, text, m);
      assert first + tail == [text[0]] + tail && (first + tail)[1..] == tail;
    } else {
      SkipEscape(first, tail, m, by_);
    }
  }

  lemma ShortEncodes(esc: char -> string, text: string, m: string, by_: string)
    requires m != "" && text != "" && !StartsWith(text, m)
    ensures Encode(esc, Replace(text, m, by_)) == esc(text[0]) + Encode(esc, Replace(text[1..], m, by_))
  {
    if |text| >= |m| {
      assert ([text[0]] + Replace(text[1..], m, by_))[1..] == Replace(text[1..], m, by_);
    }
  }

  /** An escaped text holds the markers of the text. */
  lemma {:induction false} EncodeOccurs(esc: char -> string, text: string, m: string)
    requires Faithful(esc) && Marker(m)
    ensures Occurs(Encode(esc, text), m) <==> Occurs(text, m)
    decreases |text|
  {
    hide Faithful, Marker;
    EncodeStartsMarker(esc, text, m);
    if StartsWith(text, m) {
      assert Occurs(text, m);
    } else if text != "" {
      EncodeOccurs(esc, text[1..], m);
      EncodeStep(esc, text, m, "");
    }
  }

  // ---------------------------------------------------------------- quotes

  predicate IsQuote(c: char) {
    c == '\'' || c == '"'
  }

  function Quotes(text: string): nat {
    if text == "" then 0 else (if IsQuote(text[0]) then 1 else 0) + Quotes(text[1..])
  }

  lemma {:induction false} QuotesJoin(a: string, b: string)
    ensures Quotes(a + b) == Quotes(a) + Quotes(b)
    decreases |a|
  {
    if a == "" {
      assert a + b == b;
    } else {
      assert (a + b)[1..] == a[1..] + b;
      QuotesJoin(a[1..], b);
    }
  }

  lemma {:induction false} NoQuotes(m: string)
    requires forall i :: 0 <= i < |m| ==> MarkerChar(m[i])
    ensures Quotes(m) == 0
  {
    if m != "" { NoQuotes(m[1..]); }
  }

  /** Every replacement adds the quotes of what is put in, and takes none away. */
  lemma {:induction false} QuotesReplace(text: string, m: string, by_: string)
    requires Marker(m)
    ensures Quotes(Replace(text, m, by_)) >= Quotes(text)
    ensures Occurs(text, m) && Quotes(by_) > 0 ==> Quotes(Replace(text, m, by_)) > Quotes(text)
    decreases |text|
  {
    if |text| >= |m| {
      if StartsWith(text, m) {
        QuotesReplace(text[|m|..], m, by_);
        QuotesJoin(by_, Replace(text[|m|..], m, by_));
        NoQuotes(m);
        QuotesJoin(m, text[|m|..]);
        assert text == m + text[|m|..];
      } else {
        QuotesReplace(text[1..], m, by_);
        assert ([text[0]] + Replace(text[1..], m, by_))[1..] == Replace(text[1..], m, by_);
      }
    }
  }
}

/** Reading a preferences file undoes writing it: exactly when no text in it contains a newline, and whatever
    optional lines are left out or moved. */
module PreferencesRoundTrip {
  import opened TextLines
  import opened PreferencesFormat

  // ---------------------------------------------------------------- words

  lemma {:induction false} WordLengthOf(name: string, rest: string)
    requires forall i | 0 <= i < |name| :: name[i] > ' '
    requires rest == "" || IsSpace(rest[0])
    ensures WordLength(name + rest) == |name|
  {
    if name == "" {
      assert name + rest == rest;
    } else {
      assert (name + rest)[1..] == name[1..] + rest;
      WordLengthOf(name[1..], rest);
    }
  }

  lemma SkipsOne(t: string)
    requires t != "" && !IsSpace(t[0])
    ensures SkipSpaces([' '] + t) == t && SkipSpaces(t) == t
  {
    assert ([' '] + t)[1..] == t;
  }

  /** The next word is a name that white space follows. */
  lemma WordOf(name: string, rest: string)
    requires Solid(name) && (rest == "" || IsSpace(rest[0]))
    ensures Word(name + rest) == Found(name, rest)
  {
    WordLengthOf(name, rest);
    hide SkipSpaces, WordLength;
  }

  // ---------------------------------------------------------------- quoted texts

  /** Unquoting undoes escaping, quotes and backslashes included. */
  lemma {:induction false} UnquoteUndoesEscape(text: string, rest: string)
    ensures Unquote(EscapedText(text) + [QUOTE] + rest) == Found(text, rest)
  {
    if text == "" {
      assert EscapedText(text) + [QUOTE] + rest == [QUOTE] + rest;
    } else {
      var tail := EscapedText(text[1..]) + [QUOTE] + rest;
      UnquoteUndoesEscape(text[1..], rest);
      assert text == [text[0]] + text[1..];
      if text[0] == QUOTE || text[0] == ESCAPE {
        assert EscapedText(text) + [QUOTE] + rest == [ESCAPE, text[0]] + tail;
        assert ([ESCAPE, text[0]] + tail)[2..] == tail;
      } else {
        assert EscapedText(text) + [QUOTE] + rest == [text[0]] + tail;
        assert ([text[0]] + tail)[1..] == tail;
      }
    }
  }

  /** Without its closing quote an escaped text is never complete. */
  lemma {:induction false} UnclosedIsMissing(text: string)
    ensures Unquote(EscapedText(text)) == Missing
  {
    if text != "" {
      var tail := EscapedText(text[1..]);
      UnclosedIsMissing(text[1..]);
      if text[0] == QUOTE || text[0] == ESCAPE {
        assert ([ESCAPE, text[0]] + tail)[2..] == tail;
      } else {
        assert ([text[0]] + tail)[1..] == tail;
      }
    }
  }

  lemma QuotedReads(text: string)
    ensures ReadQuoted([' '] + Quoted(text)) == Found(text, "")
  {
    var t := Quoted(text);
    SkipsOne(t);
    UnquoteUndoesEscape(text, "");
    assert t[1..] == EscapedText(text) + [QUOTE] + "";
    hide Unquote, SkipSpaces, EscapedText;
  }

  lemma UnclosedReads(text: string)
    ensures ReadQuoted([' '] + [QUOTE] + EscapedText(text)) == Missing
  {
    var t := [QUOTE] + EscapedText(text);
    assert [' '] + [QUOTE] + EscapedText(text) == [' '] + t;
    SkipsOne(t);
    UnclosedIsMissing(text);
    assert t[1..] == EscapedText(text);
    hide Unquote, SkipSpaces, EscapedText;
  }

  // ---------------------------------------------------------------- numbers

  lemma {:induction false} DigitsLengthAll(text: string)
    requires forall i | 0 <= i < |text| :: IsDigit(text[i])
    ensures DigitsLength(text) == |text|
  {
    if text != "" { DigitsLengthAll(text[1..]); }
  }

  lemma {:induction false} NumberOfDigits(n: nat)
    ensures (forall i | 0 <= i < |Digits(n)| :: IsDigit(Digits(n)[i])) && NumberOf(Digits(n)) == n
  {
    var text := Digits(n);
    assert forall i | 0 <= i < |text| :: text[i] in text;
    if n < 10 {
      assert text[..0] == "";
    } else {
      NumberOfDigits(n / 10);
      assert text[..|text| - 1] == Digits(n / 10);
    }
  }

  lemma DigitsScan(n: nat)
    ensures var text := Digits(n);
            && text != "" && IsDigit(text[0]) && DigitsLength(text) == |text|
            && text[..|text|] == text && text[|text|..] == "" && NumberOf(text[..|text|]) == n
  {
    var text := Digits(n);
    NumberOfDigits(n);
    DigitsLengthAll(text);
    assert text[..|text|] == text;
  }

  lemma PlainMagnitudeReads(n: nat)
    ensures ReadMagnitude([' '] + Digits(n)) == Found((false, n), "")
  {
    DigitsScan(n);
    SkipsOne(Digits(n));
    hide Digits, NumberOf, DigitsLength, SkipSpaces;
  }

  lemma NegativeMagnitudeReads(n: nat)
    ensures ReadMagnitude([' '] + (['-'] + Digits(n))) == Found((true, n), "")
  {
    var text := ['-'] + Digits(n);
    DigitsScan(n);
    SkipsOne(text);
    assert text[1..] == Digits(n);
    hide Digits, NumberOf, DigitsLength, SkipSpaces;
  }

  lemma SignedReads(n: int)
    requires -0x8000_0000 <= n < 0x8000_0000
    ensures ReadSigned([' '] + Signed(n)) == Found(n, "")
  {
    if n < 0 { NegativeMagnitudeReads(0 - n); } else { PlainMagnitudeReads(n); }
    hide ReadMagnitude, Digits;
  }

  lemma UnsignedReads(n: int)
    requires 0 <= n < WORD32
    ensures ReadUnsigned([' '] + Signed(n)) == Found(n, "")
  {
    PlainMagnitudeReads(n);
    hide ReadMagnitude, Digits;
  }

  lemma GainReads(g: GainText, n: nat)
    requires g.Exact() && n <= 2 * GAIN_ONE && IsFloat(n)
    ensures g.read(SkipSpaces([' '] + g.show(n))) == Found(n, "")
  {
    assert [' '] + g.show(n) + "" == [' '] + g.show(n) && g.show(n) + "" == g.show(n);
  }

  ghost predicate Fits(k: Key, v: Value) {
    HasType(k, v) && Permits(k, v)
  }

  lemma NumberReads(g: GainText, k: Key, n: int)
    requires g.Exact() && Fits(k, Number(n))
    ensures ReadNumber(g, KindOf(k), [' '] + Shown(g, k, Number(n))) == Found(n, "")
  {
    match KindOf(k)
    case CountKind => UnsignedReads(n);
    case GainKind => GainReads(g, n);
    case OffsetKind => SignedReads(n);
    case FlagKind => SignedReads(n);
    case TextKind =>
  }

  // ---------------------------------------------------------------- one line

  lemma LineIsNameAndValue(g: GainText, k: Key, v: Value)
    ensures Word(LineOf(g, k, v)) == Found(NameOf(k), [' '] + Shown(g, k, v)) && LineOf(g, k, v) != ""
  {
    NameIsSolid(k);
    hide NameOf, Shown;
    WordOf(NameOf(k), [' '] + Shown(g, k, v));
    assert LineOf(g, k, v) == NameOf(k) + ([' '] + Shown(g, k, v));
  }

  /** A required line gives back its value. */
  lemma RequiredReads(g: GainText, k: Key, v: Value)
    requires g.Exact() && Fits(k, v)
    ensures ReadRequired(g, k, LineOf(g, k, v)) == Some(v)
  {
    LineIsNameAndValue(g, k, v);
    if v.Text? { QuotedReads(v.text); } else { NumberReads(g, k, v.number); }
    hide NameOf, LineOf, Word, ReadQuoted, ReadNumber, Permits, KindOf, Quoted;
    assert SkipSpaces("") == "";
  }

  lemma {:induction false} KeyNamedFinds(k: Key, keys: seq<Key>)
    requires k in keys
    ensures KeyNamed(NameOf(k), keys) == Some(k)
  {
    hide NameOf;
    if NameOf(k) == NameOf(keys[0]) {
      NamesDiffer(k, keys[0]);
    } else {
      KeyNamedFinds(k, keys[1..]);
    }
  }

  /** An optional line sets its value. */
  lemma OptionalReads(g: GainText, p: Preferences, k: Key, v: Value)
    requires g.Exact() && Fits(k, v) && k in OPTIONAL
    ensures ReadOptional(g, p, LineOf(g, k, v)) == Some(p[k := v])
  {
    LineIsNameAndValue(g, k, v);
    KeyNamedFinds(k, OPTIONAL);
    if v.Text? { QuotedReads(v.text); } else { NumberReads(g, k, v.number); }
    hide NameOf, LineOf, Word, ReadQuoted, ReadNumber, Permits, KindOf, Quoted, KeyNamed;
    assert SkipSpaces("") == "";
  }

  // ---------------------------------------------------------------- many lines

  /** Settings with some of them taken from another. */
  function Overlay(base: Preferences, p: Preferences, keys: seq<Key>): Preferences
    requires forall k | k in keys :: k in p
    decreases |keys|
  {
    if keys == [] then base else Overlay(base[keys[0] := p[keys[0]]], p, keys[1..])
  }

  lemma {:induction false} OverlayIs(base: Preferences, p: Preferences, keys: seq<Key>)
    requires forall k | k in keys :: k in p
    ensures forall k :: k in Overlay(base, p, keys) <==> k in base || k in keys
    ensures forall k | k in Overlay(base, p, keys) :: Overlay(base, p, keys)[k] == if k in keys then p[k] else base[k]
    decreases |keys|
  {
    if keys != [] {
      OverlayIs(base[keys[0] := p[keys[0]]], p, keys[1..]);
      assert keys == [keys[0]] + keys[1..];
    }
  }

  ghost predicate AllFit(p: Preferences, keys: seq<Key>) {
    forall k | k in keys :: k in p && Fits(k, p[k])
  }

  lemma {:induction false} AllRequiredRead(g: GainText, base: Preferences, p: Preferences, keys: seq<Key>,
                                           more: seq<string>)
    requires g.Exact() && AllFit(p, keys)
    ensures ReadAllRequired(g, base, keys, LinesOf(g, p, keys) + more) == Some(Overlay(base, p, keys))
    decreases |keys|
  {
    hide LineOf, Fits, ReadRequired;
    if keys != [] {
      var k := keys[0];
      assert Fits(k, p[k]);
      RequiredReads(g, k, p[k]);
      AllRequiredRead(g, base[k := p[k]], p, keys[1..], more);
      assert (LinesOf(g, p, keys) + more)[1..] == LinesOf(g, p, keys[1..]) + more;
    }
  }

  lemma {:induction false} AllOptionalRead(g: GainText, base: Preferences, p: Preferences, keys: seq<Key>)
    requires g.Exact() && AllFit(p, keys) && forall k | k in keys :: k in OPTIONAL
    ensures ReadAllOptional(g, base, LinesOf(g, p, keys)) == Some(Overlay(base, p, keys))
    decreases |keys|
  {
    hide LineOf, Fits, ReadOptional;
    if keys != [] {
      var k := keys[0];
      assert Fits(k, p[k]);
      OptionalReads(g, base, k, p[k]);
      AllOptionalRead(g, base[k := p[k]], p, keys[1..]);
      assert LinesOf(g, p, keys)[1..] == LinesOf(g, p, keys[1..]);
    }
  }

  // ---------------------------------------------------------------- newlines

  /** No text among some settings breaks its line. */
  ghost predicate Unbroken(p: Preferences, keys: seq<Key>) {
    forall k | k in keys && k in p && p[k].Text? :: OneLine(p[k].text)
  }

  lemma {:induction false} EscapedNewlines(text: string)
    ensures NEWLINE in EscapedText(text) <==> NEWLINE in text
  {
    if text != "" {
      EscapedNewlines(text[1..]);
      assert text == [text[0]] + text[1..];
    }
  }

  lemma {:induction false} EscapedSplits(a: string, b: string)
    ensures EscapedText(a + b) == EscapedText(a) + EscapedText(b)
  {
    if a == "" {
      assert a + b == b;
    } else {
      assert (a + b)[1..] == a[1..] + b;
      EscapedSplits(a[1..], b);
    }
  }

  lemma SolidIsOneLine(text: string)
    requires Solid(text)
    ensures OneLine(text)
  {
  }

  lemma ShownIsOneLine(g: GainText, k: Key, v: Value)
    requires g.Exact() && Fits(k, v) && (v.Text? ==> OneLine(v.text))
    ensures OneLine(Shown(g, k, v))
  {
    hide EscapedText, Solid;
    match v
    case Text(text) => EscapedNewlines(text);
    case Number(n) =>
      if KindOf(k) == GainKind { SolidIsOneLine(g.show(n)); }
      hide Signed, KindOf;
  }

  lemma LineIsOneLine(g: GainText, k: Key, v: Value)
    requires g.Exact() && Fits(k, v) && (v.Text? ==> OneLine(v.text))
    ensures OneLine(LineOf(g, k, v))
  {
    NameIsSolid(k);
    SolidIsOneLine(NameOf(k));
    ShownIsOneLine(g, k, v);
    hide NameOf, Shown, Fits, Solid;
  }

  lemma LinesAreOneLine(g: GainText, p: Preferences, keys: seq<Key>)
    requires g.Exact() && AllFit(p, keys) && Unbroken(p, keys)
    ensures forall line | line in LinesOf(g, p, keys) :: OneLine(line)
  {
    hide LineOf, Fits, OneLine;
    forall i | 0 <= i < |keys| ensures OneLine(LinesOf(g, p, keys)[i]) {
      assert keys[i] in keys && Fits(keys[i], p[keys[i]]);
      LineIsOneLine(g, keys[i], p[keys[i]]);
    }
  }

  lemma HeaderIsOneLine()
    ensures OneLine(FILE_HEADER)
  {
    assert forall i | 0 <= i < |FILE_HEADER| :: FILE_HEADER[i] >= ' ';
  }

  // ---------------------------------------------------------------- optional lines in any order

  /** Settings taken from some lines, and the rest from a base. */
  function RestoredFrom(base: Preferences, p: Preferences, required: seq<Key>, order: seq<Key>): Preferences
    requires forall k | k in required || k in order :: k in p
  {
    map k | k in base :: if k in required || k in order then p[k] else base[k]
  }

  /** What a file with only some optional lines restores: the rest are defaults. */
  function Restored(p: Preferences, order: seq<Key>): Preferences
    requires forall k | k in REQUIRED || k in order :: k in p
  {
    RestoredFrom(Defaults(), p, REQUIRED, order)
  }

  lemma TextDefaultsFit(k: Key)
    requires KindOf(k) == TextKind
    ensures Fits(k, DefaultOf(k))
  {
    PlainDefault("");
    PlainDefault("Musician");
    PlainDefault("avatar:guitar-electric");
    PlainDefault("Guitar");
    hide Plain;
  }

  lemma PlainDefault(text: string)
    requires forall i | 0 <= i < |text| :: text[i] >= ' '
    ensures '\0' !in text && RETURN !in text
  {
  }

  lemma NumberDefaultsFit(k: Key)
    requires KindOf(k) != TextKind
    ensures Fits(k, DefaultOf(k))
  {
    GainsAreFloats();
    hide IsFloat;
  }

  lemma Doubled(n: nat)
    requires IsFloat(n)
    ensures IsFloat(2 * n)
  {
  }

  /** One hexadecimal zero more. */
  lemma Shifted(n: nat)
    requires IsFloat(n)
    ensures IsFloat(0x10 * n)
  {
    hide IsFloat;
    Doubled(n);
    Doubled(2 * n);
    Doubled(4 * n);
    Doubled(8 * n);
  }

  lemma ShiftedByFour(n: nat)
    requires IsFloat(n)
    ensures IsFloat(0x1_0000 * n)
  {
    hide IsFloat;
    Shifted(n);
    Shifted(0x10 * n);
    Shifted(0x100 * n);
    Shifted(0x1000 * n);
  }

  lemma ShiftedBySixteen(n: nat)
    requires IsFloat(n)
    ensures IsFloat(0x1_0000_0000_0000_0000 * n)
  {
    hide IsFloat;
    ShiftedByFour(n);
    ShiftedByFour(0x1_0000 * n);
    ShiftedByFour(0x1_0000_0000 * n);
    ShiftedByFour(0x1_0000_0000_0000 * n);
  }

  /** A number of seven hexadecimal digits and the 31 zeros that gains end in. */
  lemma GainIsFloat(n: nat)
    requires IsFloat(n)
    ensures IsFloat(0x1_0000_0000_0000_0000_0000_0000_0000_000 * n)
  {
    hide IsFloat;
    ShiftedBySixteen(n);
    ShiftedByFour(0x1_0000_0000_0000_0000 * n);
    ShiftedByFour(0x1_0000_0000_0000_0000_0000 * n);
    ShiftedByFour(0x1_0000_0000_0000_0000_0000_0000 * n);
    Shifted(0x1_0000_0000_0000_0000_0000_0000_0000 * n);
    Shifted(0x1_0000_0000_0000_0000_0000_0000_0000_0 * n);
    Shifted(0x1_0000_0000_0000_0000_0000_0000_0000_00 * n);
  }

  lemma GainsAreFloats()
    ensures IsFloat(GAIN_ONE) && IsFloat(GAIN_072) && IsFloat(GAIN_055)
  {
    GainIsFloat(0x200_0000);
    GainIsFloat(0x170_a3d8);
    GainIsFloat(0x119_999a);
  }

  lemma DefaultsFit(k: Key)
    ensures Fits(k, DefaultOf(k))
  {
    if KindOf(k) == TextKind { TextDefaultsFit(k); } else { NumberDefaultsFit(k); }
    hide Fits, DefaultOf, KindOf;
  }

  lemma OverlaysRestore(base: Preferences, p: Preferences, required: seq<Key>, order: seq<Key>)
    requires (forall k | k in required || k in order :: k in p) && forall k: Key :: k in base
    ensures Overlay(Overlay(base, p, required), p, order) == RestoredFrom(base, p, required, order)
  {
    OverlayIs(base, p, required);
    OverlayIs(Overlay(base, p, required), p, order);
    hide Overlay;
  }

  lemma DefaultsAreTotal()
    ensures forall k: Key :: k in Defaults() && Defaults()[k] == DefaultOf(k)
  {
    forall k: Key ensures k in Defaults() {
      AllKeysListed(k);
    }
    hide DefaultOf;
  }

  lemma RestoredIsPermitted(base: Preferences, p: Preferences, required: seq<Key>, order: seq<Key>)
    requires AllFit(p, required) && AllFit(p, order)
    requires forall k | k in base :: Fits(k, base[k])
    ensures Permitted(RestoredFrom(base, p, required, order))
  {
    hide Permits, KindOf;
    var r := RestoredFrom(base, p, required, order);
    forall k | k in r ensures Permits(k, r[k]) {
      assert if k in required || k in order then Fits(k, p[k]) else Fits(k, base[k]);
    }
  }

  /** The fold over the lines of a file. */
  lemma LinesRestore(g: GainText, p: Preferences, order: seq<Key>)
    requires g.Exact() && AllFit(p, REQUIRED) && AllFit(p, order) && forall k | k in order :: k in OPTIONAL
    ensures ParseLines(g, [FILE_HEADER] + LinesOf(g, p, REQUIRED) + LinesOf(g, p, order)) == Some(Restored(p, order))
  {
    AllRequiredRead(g, Defaults(), p, REQUIRED, LinesOf(g, p, order));
    AllOptionalRead(g, Overlay(Defaults(), p, REQUIRED), p, order);
    DefaultsAreTotal();
    forall k ensures Fits(k, DefaultOf(k)) { DefaultsFit(k); }
    hide DefaultOf;
    OverlaysRestore(Defaults(), p, REQUIRED, order);
    RestoredIsPermitted(Defaults(), p, REQUIRED, order);
    OverlayFlags(Defaults(), p, REQUIRED);
    hide LinesOf, Overlay, Restored, Permitted, FlagsFine, Fits, Defaults;
    ParsesAs(g, LinesOf(g, p, REQUIRED), LinesOf(g, p, order), Overlay(Defaults(), p, REQUIRED), Restored(p, order));
  }

  /** A file whose two halves read as given. */
  lemma ParsesAs(g: GainText, required: seq<string>, optional: seq<string>, middle: Preferences, whole: Preferences)
    requires ReadAllRequired(g, Defaults(), REQUIRED, required + optional) == Some(middle)
    requires FlagsFine(middle, REQUIRED) && |required| == |REQUIRED|
    requires ReadAllOptional(g, middle, optional) == Some(whole) && Permitted(whole)
    ensures ParseLines(g, [FILE_HEADER] + required + optional) == Some(whole)
  {
    hide ReadAllRequired, ReadAllOptional, Permitted, FlagsFine, Defaults;
    var lines := [FILE_HEADER] + required + optional;
    assert lines[1..] == required + optional;
    assert lines[1 + |REQUIRED|..] == optional;
    assert lines[0] == FILE_HEADER;
  }

  lemma OverlayFlags(base: Preferences, p: Preferences, keys: seq<Key>)
    requires AllFit(p, keys)
    ensures FlagsFine(Overlay(base, p, keys), keys)
  {
    OverlayIs(base, p, keys);
    var r := Overlay(base, p, keys);
    hide Overlay;
    forall k | k in keys && k in r && KindOf(k) == FlagKind ensures r[k] == Number(0) || r[k] == Number(1) {
      assert Fits(k, p[k]);
    }
  }

  /** Optional lines may be left out, repeated or written in any order: the file gives back what it says and
      defaults for the rest. */
  lemma OptionalLinesInAnyOrder(g: GainText, p: Preferences, order: seq<Key>)
    requires g.Exact() && AllFit(p, REQUIRED) && AllFit(p, order) && forall k | k in order :: k in OPTIONAL
    requires Unbroken(p, REQUIRED) && Unbroken(p, order)
    ensures Parse(g, TextWith(g, p, order)) == Some(Restored(p, order))
  {
    LinesAreOneLine(g, p, REQUIRED);
    LinesAreOneLine(g, p, order);
    HeaderIsOneLine();
    LinesRestore(g, p, order);
    hide LinesOf, ParseLines, OneLine;
    SplitUndoesJoin([FILE_HEADER] + LinesOf(g, p, REQUIRED) + LinesOf(g, p, order));
  }

  // ---------------------------------------------------------------- a broken line

  /** The first setting whose text breaks its line. */
  lemma {:induction false} FirstBroken(p: Preferences, keys: seq<Key>) returns (j: nat)
    requires !Unbroken(p, keys)
    ensures j < |keys| && keys[j] in p && p[keys[j]].Text? && NEWLINE in p[keys[j]].text && Unbroken(p, keys[..j])
  {
    var k := keys[0];
    assert keys == [k] + keys[1..];
    if k in p && p[k].Text? && NEWLINE in p[k].text {
      j := 0;
    } else {
      var i := FirstBroken(p, keys[1..]);
      j := i + 1;
      assert keys[..j] == [k] + keys[1..][..i];
    }
  }

  lemma SplitFirst(line: string, tail: string)
    requires OneLine(line)
    ensures SplitLines(line + [NEWLINE] + tail) == [line] + SplitLines(tail)
  {
    var text := line + [NEWLINE] + tail;
    IndexOfSplit(line, NEWLINE, tail);
    assert text != "" && text[..|line|] == line && text[|line| + 1..] == tail;
    hide IndexOf;
  }

  lemma Assoc(a: string, b: string, c: string)
    ensures a + b + c == a + (b + c)
  {
  }

  lemma {:induction false} SplitPrefix(front: seq<string>, rest: string)
    requires forall line | line in front :: OneLine(line)
    ensures SplitLines(Joined(front) + rest) == front + SplitLines(rest)
  {
    hide SplitLines, OneLine;
    if front == [] {
      assert Joined(front) + rest == rest;
    } else {
      var line := front[0];
      assert line in front && front == [line] + front[1..];
      SplitPrefix(front[1..], rest);
      SplitFirst(line, Joined(front[1..]) + rest);
      Assoc(line + [NEWLINE], Joined(front[1..]), rest);
    }
  }

  lemma {:induction false} FirstNewline(text: string)
    requires NEWLINE in text
    ensures var i := IndexOf(text, NEWLINE);
            && i < |text| && OneLine(text[..i]) && text == text[..i] + [NEWLINE] + text[i + 1..]
  {
    var i := IndexOf(text, NEWLINE);
    IndexFound(text, NEWLINE);
    hide IndexOf;
    assert text[..i] + [text[i]] + text[i + 1..] == text;
  }

  lemma {:induction false} IndexFound(text: string, c: char)
    requires c in text
    ensures IndexOf(text, c) < |text| && text[IndexOf(text, c)] == c && c !in text[..IndexOf(text, c)]
  {
    assert text == [text[0]] + text[1..];
    if text[0] != c {
      IndexFound(text[1..], c);
      var i := IndexOf(text[1..], c);
      assert text[..i + 1] == [text[0]] + text[1..][..i];
    }
  }

  /** A line broken by a newline is read only up to it. */
  lemma SplitBroken(front: seq<string>, line: string, after: seq<string>) returns (more: seq<string>)
    requires NEWLINE in line && forall l | l in front :: OneLine(l)
    ensures SplitLines(Joined(front + [line] + after)) == front + [line[..IndexOf(line, NEWLINE)]] + more
  {
    var i := IndexOf(line, NEWLINE);
    FirstNewline(line);
    var cut, rest := line[..i], line[i + 1..] + [NEWLINE] + Joined(after);
    hide SplitLines, Joined, OneLine, IndexOf;
    JoinedAround(front, line, after);
    LineTail(cut, line[i + 1..], Joined(after));
    SplitPrefix(front, cut + [NEWLINE] + rest);
    SplitFirst(cut, rest);
    more := SplitLines(rest);
    assert front + ([cut] + more) == front + [cut] + more;
  }

  lemma LineTail(cut: string, back: string, after: string)
    ensures cut + [NEWLINE] + back + [NEWLINE] + after == cut + [NEWLINE] + (back + [NEWLINE] + after)
  {
  }

  lemma JoinedAround(front: seq<string>, line: string, after: seq<string>)
    ensures Joined(front + [line] + after) == Joined(front) + (line + [NEWLINE] + Joined(after))
  {
    JoinedAppends(front + [line], after);
    JoinedAppends(front, [line]);
    JoinedOne(line);
    hide Joined;
    Assoc(Joined(front), line + [NEWLINE], Joined(after));
  }

  /** What is left of a broken line: an opening quote and no closing one. */
  function Stump(k: Key, text: string): string {
    NameOf(k) + ([' '] + [QUOTE] + EscapedText(text))
  }

  lemma BrokenLine(g: GainText, k: Key, text: string)
    requires NEWLINE in text
    ensures var line := LineOf(g, k, Text(text));
            NEWLINE in line && line[..IndexOf(line, NEWLINE)] == Stump(k, text[..IndexOf(text, NEWLINE)])
  {
    var i := IndexOf(text, NEWLINE);
    FirstNewline(text);
    var front, back := text[..i], text[i + 1..];
    EscapedAround(front, back);
    EscapedNewlines(front);
    NameIsSolid(k);
    SolidIsOneLine(NameOf(k));
    hide NameOf, EscapedText, Solid, OneLine, IndexOf;
    var rest := EscapedText(back) + [QUOTE];
    StumpAround(NameOf(k), EscapedText(front), EscapedText(back));
    IndexOfSplit(Stump(k, front), NEWLINE, rest);
    assert (Stump(k, front) + [NEWLINE] + rest)[..|Stump(k, front)|] == Stump(k, front);
    assert (Stump(k, front) + [NEWLINE] + rest)[|Stump(k, front)|] == NEWLINE;
  }

  lemma EscapedAround(front: string, back: string)
    ensures EscapedText(front + [NEWLINE] + back) == EscapedText(front) + [NEWLINE] + EscapedText(back)
  {
    EscapedSplits(front + [NEWLINE], back);
    EscapedSplits(front, [NEWLINE]);
    assert [NEWLINE][1..] == "";
    assert EscapedText([NEWLINE]) == [NEWLINE];
  }

  lemma StumpAround(name: string, front: string, back: string)
    ensures name + [' '] + ([QUOTE] + (front + [NEWLINE] + back) + [QUOTE])
            == name + ([' '] + [QUOTE] + front) + [NEWLINE] + (back + [QUOTE])
  {
  }

  lemma StumpWord(k: Key, text: string)
    ensures Word(Stump(k, text)) == Found(NameOf(k), [' '] + [QUOTE] + EscapedText(text)) && Stump(k, text) != ""
  {
    NameIsSolid(k);
    hide NameOf, EscapedText;
    WordOf(NameOf(k), [' '] + [QUOTE] + EscapedText(text));
  }

  lemma StumpIsRefused(g: GainText, k: Key, text: string)
    requires KindOf(k) == TextKind
    ensures ReadRequired(g, k, Stump(k, text)) == None
    ensures k in OPTIONAL ==> forall p :: ReadOptional(g, p, Stump(k, text)) == None
  {
    StumpWord(k, text);
    UnclosedReads(text);
    if k in OPTIONAL { KeyNamedFinds(k, OPTIONAL); }
    hide NameOf, EscapedText, Word, ReadQuoted, KeyNamed, Stump, KindOf;
  }

  lemma {:induction false} RequiredFails(g: GainText, base: Preferences, p: Preferences, keys: seq<Key>, j: nat,
                                         bad: string, more: seq<string>)
    requires g.Exact() && j < |keys| && AllFit(p, keys) && ReadRequired(g, keys[j], bad) == None
    ensures ReadAllRequired(g, base, keys, LinesOf(g, p, keys[..j]) + [bad] + more) == None
    decreases j
  {
    hide LineOf, Fits, ReadRequired;
    if j > 0 {
      var k := keys[0];
      assert Fits(k, p[k]);
      RequiredReads(g, k, p[k]);
      RequiredFails(g, base[k := p[k]], p, keys[1..], j - 1, bad, more);
      assert keys[..j][1..] == keys[1..][..j - 1];
      assert LinesOf(g, p, keys[..j]) == [LineOf(g, k, p[k])] + LinesOf(g, p, keys[1..][..j - 1]);
      assert (LinesOf(g, p, keys[..j]) + [bad] + more)[1..] == LinesOf(g, p, keys[1..][..j - 1]) + [bad] + more;
    }
  }

  lemma {:induction false} OptionalFails(g: GainText, base: Preferences, p: Preferences, keys: seq<Key>,
                                         bad: string, more: seq<string>)
    requires g.Exact() && AllFit(p, keys) && (forall k | k in keys :: k in OPTIONAL)
    requires forall q :: ReadOptional(g, q, bad) == None
    ensures ReadAllOptional(g, base, LinesOf(g, p, keys) + [bad] + more) == None
    decreases |keys|
  {
    hide LineOf, Fits, ReadOptional;
    if keys != [] {
      var k := keys[0];
      assert Fits(k, p[k]);
      OptionalReads(g, base, k, p[k]);
      OptionalFails(g, base[k := p[k]], p, keys[1..], bad, more);
      assert (LinesOf(g, p, keys) + [bad] + more)[1..] == LinesOf(g, p, keys[1..]) + [bad] + more;
    }
  }

  lemma LinesAround(g: GainText, p: Preferences, keys: seq<Key>, j: nat)
    requires j < |keys| && forall k | k in keys :: k in p
    ensures LinesOf(g, p, keys) == LinesOf(g, p, keys[..j]) + [LineOf(g, keys[j], p[keys[j]])] + LinesOf(g, p, keys[j + 1..])
  {
    hide LineOf;
  }

  /** The stump of a broken text is refused where it stands. */
  lemma BrokenStump(g: GainText, k: Key, v: Value)
    requires Fits(k, v) && v.Text? && NEWLINE in v.text
    ensures var line := LineOf(g, k, v);
            && NEWLINE in line
            && var bad := line[..IndexOf(line, NEWLINE)];
            && ReadRequired(g, k, bad) == None
            && (k in OPTIONAL ==> forall p :: ReadOptional(g, p, bad) == None)
  {
    BrokenLine(g, k, v.text);
    StumpIsRefused(g, k, v.text[..IndexOf(v.text, NEWLINE)]);
    hide LineOf, ReadRequired, ReadOptional, Stump;
  }

  /** The lines of a text whose first broken line is among these keys. */
  lemma BrokenLines(g: GainText, p: Preferences, before: seq<string>, keys: seq<Key>, j: nat, after: seq<string>)
    returns (bad: string, more: seq<string>)
    requires g.Exact() && AllFit(p, keys) && forall line | line in before :: OneLine(line)
    requires j < |keys| && Unbroken(p, keys[..j]) && p[keys[j]].Text? && NEWLINE in p[keys[j]].text
    ensures SplitLines(Joined(before + LinesOf(g, p, keys) + after)) == before + (LinesOf(g, p, keys[..j]) + [bad] + more)
    ensures ReadRequired(g, keys[j], bad) == None
    ensures keys[j] in OPTIONAL ==> forall q :: ReadOptional(g, q, bad) == None
  {
    hide LineOf, ReadRequired, ReadOptional, Fits, SplitLines, Joined, IndexOf;
    var k := keys[j];
    assert Fits(k, p[k]);
    BrokenStump(g, k, p[k]);
    var line := LineOf(g, k, p[k]);
    bad := line[..IndexOf(line, NEWLINE)];
    LinesAround(g, p, keys, j);
    LinesAreOneLine(g, p, keys[..j]);
    hide LinesOf;
    var front, rest := LinesOf(g, p, keys[..j]), LinesOf(g, p, keys[j + 1..]);
    more := SplitBroken(before + front, line, rest + after);
    assert before + (front + [line] + rest) + after == before + front + [line] + (rest + after);
    assert before + front + [bad] + more == before + (front + [bad] + more);
  }

  lemma BrokenRequiredFails(g: GainText, p: Preferences, j: nat)
    requires g.Exact() && AllFit(p, REQUIRED) && forall k | k in OPTIONAL :: k in p
    requires j < |REQUIRED| && Unbroken(p, REQUIRED[..j]) && p[REQUIRED[j]].Text? && NEWLINE in p[REQUIRED[j]].text
    ensures Parse(g, TextWith(g, p, OPTIONAL)) == None
  {
    HeaderIsOneLine();
    hide SplitLines, Joined, LinesOf, ReadRequired, ReadAllRequired, Defaults, Fits;
    var bad, more := BrokenLines(g, p, [FILE_HEADER], REQUIRED, j, LinesOf(g, p, OPTIONAL));
    RequiredFails(g, Defaults(), p, REQUIRED, j, bad, more);
    hide ParseLines;
  }

  lemma OptionalHalfFails(g: GainText, required: seq<string>, optional: seq<string>, middle: Preferences)
    requires ReadAllRequired(g, Defaults(), REQUIRED, required + optional) == Some(middle) && |required| == |REQUIRED|
    requires ReadAllOptional(g, middle, optional) == None
    ensures ParseLines(g, [FILE_HEADER] + required + optional) == None
  {
    hide ReadAllRequired, ReadAllOptional, Permitted, FlagsFine, Defaults;
    var lines := [FILE_HEADER] + required + optional;
    assert lines[1..] == required + optional;
    assert lines[1 + |REQUIRED|..] == optional;
  }

  lemma BrokenOptionalFails(g: GainText, p: Preferences, j: nat)
    requires g.Exact() && AllFit(p, REQUIRED) && AllFit(p, OPTIONAL) && Unbroken(p, REQUIRED)
    requires j < |OPTIONAL| && Unbroken(p, OPTIONAL[..j]) && p[OPTIONAL[j]].Text? && NEWLINE in p[OPTIONAL[j]].text
    ensures Parse(g, TextWith(g, p, OPTIONAL)) == None
  {
    HeaderIsOneLine();
    LinesAreOneLine(g, p, REQUIRED);
    hide SplitLines, Joined, LinesOf, ReadRequired, ReadOptional, ReadAllRequired, ReadAllOptional, Defaults, Fits;
    var required := LinesOf(g, p, REQUIRED);
    var bad, more := BrokenLines(g, p, [FILE_HEADER] + required, OPTIONAL, j, []);
    assert [FILE_HEADER] + required + LinesOf(g, p, OPTIONAL) + [] == [FILE_HEADER] + required + LinesOf(g, p, OPTIONAL);
    var optional := LinesOf(g, p, OPTIONAL[..j]) + [bad] + more;
    AllRequiredRead(g, Defaults(), p, REQUIRED, optional);
    OptionalFails(g, Overlay(Defaults(), p, REQUIRED), p, OPTIONAL[..j], bad, more);
    OptionalHalfFails(g, required, optional, Overlay(Defaults(), p, REQUIRED));
    hide ParseLines, Overlay;
  }

  // ---------------------------------------------------------------- the round trip

  lemma EverythingFits(p: Preferences)
    requires WellTyped(p) && Permitted(p)
    ensures AllFit(p, REQUIRED) && AllFit(p, OPTIONAL) && (forall k: Key :: k in p)
  {
    hide Permits, KindOf;
  }

  lemma RestoredWhole(p: Preferences)
    requires forall k: Key :: k in p
    ensures Restored(p, OPTIONAL) == p
  {
    DefaultsAreTotal();
    forall k: Key ensures k in REQUIRED || k in OPTIONAL {
      AllKeysListed(k);
    }
    hide Defaults;
  }

  /** For every valid preferences value: parsing what was written gives it back exactly when none of its texts
      contains a newline; otherwise the whole file is refused. */
  lemma RoundTripExactly(g: GainText, p: Preferences)
    requires g.Exact() && WellTyped(p) && Permitted(p)
    ensures forall k | k in KEYS :: k in p
    ensures Parse(g, Write(g, p)) == if Unbroken(p, REQUIRED) && Unbroken(p, OPTIONAL) then Some(p) else None
  {
    EverythingFits(p);
    hide Parse, TextWith, Fits, Restored, WellTyped, Permitted;
    if !Unbroken(p, REQUIRED) {
      var j := FirstBroken(p, REQUIRED);
      BrokenRequiredFails(g, p, j);
    } else if !Unbroken(p, OPTIONAL) {
      var j := FirstBroken(p, OPTIONAL);
      BrokenOptionalFails(g, p, j);
    } else {
      OptionalLinesInAnyOrder(g, p, OPTIONAL);
      RestoredWhole(p);
    }
  }

  /** Writing gains as decimal digits of their units is one way to meet the condition on gain texts. The code
      meets it in another: with the nine significant digits that single precision needs. */
  lemma ExactGainsExist() returns (g: GainText)
    ensures g.Exact()
  {
    g := GainText((n: nat) => Digits(n), (text: string) => ReadGainDigits(text));
    forall n: nat ensures Solid(g.show(n)) && g.read(g.show(n)) == Found(n, "") {
      DigitsScan(n);
      NumberOfDigits(n);
    }
  }

  function ReadGainDigits(text: string): Scan<int> {
    var n := DigitsLength(text);
    if n == 0 then Missing else Found(NumberOf(text[..n]), text[n..])
  }
}

/** The preferences file's writer and reader as they run: one line after another. */
module PreferencesStore {
  import opened TextLines
  import opened PreferencesFormat

  lemma LinesGrow(g: GainText, p: Preferences, keys: seq<Key>, i: nat)
    requires i < |keys| && forall k | k in keys :: k in p
    ensures LinesOf(g, p, keys[..i + 1]) == LinesOf(g, p, keys[..i]) + [LineOf(g, keys[i], p[keys[i]])]
  {
    hide LineOf;
  }

  method WriteLines(g: GainText, p: Preferences, keys: seq<Key>, text: string, ghost before: seq<string>)
    returns (longer: string)
    requires (forall k | k in keys :: k in p) && text == Joined(before)
    ensures longer == Joined(before + LinesOf(g, p, keys))
  {
    hide LineOf, Joined;
    longer := text;
    assert before + LinesOf(g, p, keys[..0]) == before;
    for i := 0 to |keys|
      invariant longer == Joined(before + LinesOf(g, p, keys[..i]))
    {
      var line := LineOf(g, keys[i], p[keys[i]]);
      longer := longer + line + [NEWLINE];
      LinesGrow(g, p, keys, i);
      JoinedAppends(before + LinesOf(g, p, keys[..i]), [line]);
      JoinedOne(line);
      assert before + LinesOf(g, p, keys[..i + 1]) == before + LinesOf(g, p, keys[..i]) + [line];
    }
    assert keys[..|keys|] == keys;
  }

  method WriteFile(g: GainText, p: Preferences) returns (text: string)
    requires forall k | k in KEYS :: k in p
    ensures text == Write(g, p)
  {
    assert forall k | k in REQUIRED || k in OPTIONAL :: k in KEYS;
    JoinedOne(FILE_HEADER);
    hide LinesOf, Joined;
    text := FILE_HEADER + [NEWLINE];
    text := WriteLines(g, p, REQUIRED, text, [FILE_HEADER]);
    text := WriteLines(g, p, OPTIONAL, text, [FILE_HEADER] + LinesOf(g, p, REQUIRED));
  }

  /** The next line of a text, as `std::getline` takes it off the front. */
  method NextLine(text: string) returns (line: string, rest: string)
    requires text != ""
    ensures SplitLines(text) == [line] + SplitLines(rest) && |rest| < |text|
  {
    SplitStep(text);
    hide SplitLines;
    var end := IndexOf(text, NEWLINE);
    line, rest := text[..end], if end == |text| then "" else text[end + 1..];
  }

  lemma EmptySplits(text: string)
    ensures text == "" <==> SplitLines(text) == []
  {
  }

  /** The required lines, one for each key. */
  method ReadRequiredLines(g: GainText, base: Preferences, keys: seq<Key>, text: string)
    returns (result: Option<Preferences>, rest: string)
    ensures result == ReadAllRequired(g, base, keys, SplitLines(text))
    ensures result.Some? ==> |SplitLines(text)| >= |keys| && SplitLines(rest) == SplitLines(text)[|keys|..]
  {
    hide ReadRequired, SplitLines;
    var p := base;
    rest := text;
    ghost var lines := SplitLines(text);
    ghost var whole := ReadAllRequired(g, base, keys, lines);
    for i := 0 to |keys|
      invariant i <= |lines| && SplitLines(rest) == lines[i..]
      invariant ReadAllRequired(g, p, keys[i..], lines[i..]) == whole
    {
      EmptySplits(rest);
      if rest == "" {
        return None, rest;
      }
      var line, tail := NextLine(rest);
      assert line == lines[i] && lines[i + 1..] == lines[i..][1..] && keys[i..][1..] == keys[i + 1..];
      var v := ReadRequired(g, keys[i], line);
      if v.None? {
        return None, rest;
      }
      p, rest := p[keys[i] := v.value], tail;
    }
    result := Some(p);
  }

  /** Every line that is left, known or refused. */
  method ReadOptionalLines(g: GainText, base: Preferences, text: string) returns (result: Option<Preferences>)
    ensures result == ReadAllOptional(g, base, SplitLines(text))
  {
    hide ReadOptional;
    var p, rest := base, text;
    while rest != ""
      invariant ReadAllOptional(g, p, SplitLines(rest)) == ReadAllOptional(g, base, SplitLines(text))
      decreases |rest|
    {
      var line, tail := NextLine(rest);
      assert SplitLines(rest)[1..] == SplitLines(tail);
      var next := ReadOptional(g, p, line);
      if next.None? {
        return None;
      }
      p, rest := next.value, tail;
    }
    result := Some(p);
  }

  method ParseFile(g: GainText, text: string) returns (result: Option<Preferences>)
    ensures result == Parse(g, text)
  {
    hide ReadAllRequired, ReadAllOptional, Permitted, Defaults, FlagsFine;
    if text == "" {
      return None;
    }
    var header, body := NextLine(text);
    if header != FILE_HEADER {
      return None;
    }
    ghost var lines := SplitLines(text);
    assert lines[1..] == SplitLines(body);
    var required, rest := ReadRequiredLines(g, Defaults(), REQUIRED, body);
    if required.None? || !FlagsFine(required.value, REQUIRED) {
      return None;
    }
    assert lines[1 + |REQUIRED|..] == SplitLines(rest);
    result := ReadOptionalLines(g, required.value, rest);
    if result.Some? && !Permitted(result.value) {
      result := None;
    }
  }
}

/** What the preferences may hold, and exactly which texts are taken for a preferences file. */
module PreferencesLaws {
  import opened TextLines
  import opened PreferencesFormat
  import opened PreferencesRoundTrip

  // ---------------------------------------------------------------- defaults

  /** The single-precision numbers from a half to one are this many units apart. */
  const STEP: int := GAIN_ONE / 0x100_0000

  /** The two default gains that are not whole are the single-precision numbers nearest to 0.72 and 0.55. */
  lemma DefaultGainsAreNearest()
    ensures GAIN_ONE == STEP * 0x100_0000
    ensures GAIN_072 % STEP == 0 && -50 * STEP <= 100 * GAIN_072 - 72 * GAIN_ONE <= 50 * STEP
    ensures GAIN_055 % STEP == 0 && -50 * STEP <= 100 * GAIN_055 - 55 * GAIN_ONE <= 50 * STEP
  {
  }

  // ---------------------------------------------------------------- what is taken for a file

  /** A line that is empty or names an optional setting and gives it a value. */
  predicate ReadsOptional(g: GainText, line: string) {
    line == ""
    || match Word(line)
       case Missing => false
       case Found(name, rest) =>
         exists k :: k in OPTIONAL && NameOf(k) == name && HasValue(g, k, rest)
  }

  /** A text must be the last thing on its line; a number need not be. */
  predicate HasValue(g: GainText, k: Key, rest: string) {
    if KindOf(k) == TextKind then ReadQuoted(rest).Found? && SkipSpaces(ReadQuoted(rest).rest) == ""
    else ReadNumber(g, KindOf(k), rest).Found?
  }

  lemma {:induction false} KeyNamedKnows(name: string, keys: seq<Key>)
    ensures KeyNamed(name, keys).Some? ==> KeyNamed(name, keys).value in keys && NameOf(KeyNamed(name, keys).value) == name
    ensures KeyNamed(name, keys).None? ==> forall k | k in keys :: NameOf(k) != name
  {
    hide NameOf;
    if keys != [] {
      KeyNamedKnows(name, keys[1..]);
    }
  }

  /** Values of the kind that each setting has. */
  ghost predicate Kinds(p: Preferences) {
    forall k: Key :: k in p && (KindOf(k) == TextKind <==> p[k].Text?)
  }

  lemma OptionalReadsIff(g: GainText, p: Preferences, line: string)
    requires Kinds(p)
    ensures ReadOptional(g, p, line).Some? ==> ReadsOptional(g, line) && Kinds(ReadOptional(g, p, line).value)
  {
    hide NameOf, ReadNumber, KindOf;
    if line != "" && Word(line).Found? {
      KeyNamedKnows(Word(line).value, OPTIONAL);
      hide KeyNamed, Word, ReadQuoted, SkipSpaces;
    }
  }

  lemma {:induction false} AllOptionalReadIff(g: GainText, p: Preferences, lines: seq<string>)
    requires Kinds(p) && ReadAllOptional(g, p, lines).Some?
    ensures Kinds(ReadAllOptional(g, p, lines).value)
    ensures forall i | 0 <= i < |lines| :: ReadsOptional(g, lines[i])
    decreases |lines|
  {
    if lines != [] {
      OptionalReadsIff(g, p, lines[0]);
      hide ReadOptional, Kinds, ReadsOptional;
      AllOptionalReadIff(g, ReadOptional(g, p, lines[0]).value, lines[1..]);
    }
  }

  lemma {:induction false} AllRequiredReadIff(g: GainText, p: Preferences, keys: seq<Key>, lines: seq<string>)
    requires Kinds(p) && ReadAllRequired(g, p, keys, lines).Some?
    ensures |keys| <= |lines| && Kinds(ReadAllRequired(g, p, keys, lines).value)
    ensures forall i | 0 <= i < |keys| :: ReadRequired(g, keys[i], lines[i]).Some?
    decreases |keys|
  {
    if keys != [] {
      RequiredHasKind(g, keys[0], lines[0]);
      hide ReadRequired, KindOf;
      var v := ReadRequired(g, keys[0], lines[0]).value;
      AllRequiredReadIff(g, p[keys[0] := v], keys[1..], lines[1..]);
    }
  }

  lemma RequiredHasKind(g: GainText, k: Key, line: string)
    ensures ReadRequired(g, k, line).Some? ==> (KindOf(k) == TextKind <==> ReadRequired(g, k, line).value.Text?)
    ensures ReadRequired(g, k, line).Some? ==> Word(line).Found? && Word(line).value == NameOf(k)
  {
    hide NameOf, KindOf, ReadNumber, ReadQuoted, SkipSpaces, Word;
  }

  /** What a setting may be, setting by setting. */
  predicate WithinLimits(k: Key, v: Value) {
    if v.Text? then
      var n := |v.text|;
      && (k in {ProfileId, ProfileRegion} ==> n <= 64)
      && (k == ProfileHandle ==> n <= 32)
      && (k in {ProfileDisplayName, ProfileAvatar} ==> 1 <= n <= 64)
      && (k == ProfileInstrument ==> 1 <= n <= 32)
      && (k == ProfileCustomAvatar ==> n <= 1_024)
      && (k == ProfileGenres ==> n <= 128)
      && (k == ProfileBio ==> n <= 280)
      && (SectionOf(k) == ProfileSection ==> '\0' !in v.text && '\r' !in v.text)
    else
      var n := v.number;
      && (k == SampleRate ==> 8_000 <= n <= 384_000)
      && (k == BufferFrames ==> 0 <= n <= 8_192)
      && (k in {InstrumentGain, VoiceGain, RemoteInstrumentGain, RemoteVoiceGain} ==> 0 <= n <= 2 * GAIN_ONE)
      && (k == WindowWidth ==> 532 <= n <= 16_384)
      && (k == WindowHeight ==> 480 <= n <= 16_384)
      && (k == NetworkPort ==> 0 <= n <= 65_535)
      && (k == LatencyMode ==> 0 <= n <= 2)
      && (KindOf(k) == FlagKind ==> n == 0 || n == 1)
  }

  lemma PermittedIsWithinLimits(k: Key, v: Value)
    requires (KindOf(k) == TextKind <==> v.Text?) && Permits(k, v)
    ensures WithinLimits(k, v)
  {
  }

  lemma DefaultsHaveKinds()
    ensures Kinds(Defaults())
  {
    DefaultsAreTotal();
    forall k: Key ensures KindOf(k) == TextKind <==> DefaultOf(k).Text? {
      DefaultsFit(k);
    }
    hide Defaults, DefaultOf, Permits;
  }

  /** The header, a line for each required setting under its name and in order, and after them only empty lines and
      optional settings with values. */
  ghost predicate IsFile(g: GainText, lines: seq<string>) {
    && 1 + |REQUIRED| <= |lines| && lines[0] == "JAMLINK_PREFERENCES 1"
    && (forall i | 0 <= i < |REQUIRED| :: Names(lines[i + 1], REQUIRED[i]))
    && (forall i | 1 + |REQUIRED| <= i < |lines| :: ReadsOptional(g, lines[i]))
  }

  predicate Names(line: string, k: Key) { Word(line).Found? && Word(line).value == NameOf(k) }

  /** Whatever text is loaded without being refused, it has all the lines of a file and no other, and what is loaded
      has a value within the limits for every setting. So a text with a line missing, swapped or unknown is refused,
      and so is one with a value out of range. */
  lemma LoadedIsValid(g: GainText, text: string)
    requires Parse(g, text).Some?
    ensures IsFile(g, SplitLines(text))
    ensures forall k: Key :: k in Parse(g, text).value && WithinLimits(k, Parse(g, text).value[k])
  {
    LinesLoaded(g, SplitLines(text));
    hide SplitLines, ParseLines, Kinds, WithinLimits, Permitted, IsFile;
    LoadedWithinLimits(Parse(g, text).value);
  }

  lemma LoadedWithinLimits(p: Preferences)
    requires Kinds(p) && Permitted(p)
    ensures forall k: Key :: k in p && WithinLimits(k, p[k])
  {
    forall k: Key ensures k in p && WithinLimits(k, p[k]) {
      PermittedIsWithinLimits(k, p[k]);
    }
    hide WithinLimits, Permits, KindOf;
  }

  lemma LinesLoaded(g: GainText, lines: seq<string>)
    requires ParseLines(g, lines).Some?
    ensures Kinds(ParseLines(g, lines).value) && Permitted(ParseLines(g, lines).value)
    ensures IsFile(g, lines)
  {
    hide ReadRequired, ReadAllRequired, ReadAllOptional, Kinds, Permitted, FlagsFine, ReadsOptional, Word, NameOf, Defaults;
    DefaultsHaveKinds();
    AllRequiredReadIff(g, Defaults(), REQUIRED, lines[1..]);
    var p := ReadAllRequired(g, Defaults(), REQUIRED, lines[1..]).value;
    AllOptionalReadIff(g, p, lines[1 + |REQUIRED|..]);
    forall i | 0 <= i < |REQUIRED| ensures Names(lines[i + 1], REQUIRED[i]) {
      RequiredHasKind(g, REQUIRED[i], lines[1..][i]);
    }
    forall i | 1 + |REQUIRED| <= i < |lines| ensures ReadsOptional(g, lines[i]) {
      assert lines[i] == lines[1 + |REQUIRED|..][i - 1 - |REQUIRED|];
    }
  }
}

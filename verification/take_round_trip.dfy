/** Reading a take manifest undoes writing it, for every manifest. */
module TakeRoundTrip {
  import opened TextLines
  import opened TakeFormat

  // ---------------------------------------------------------------- one line

  /** A value that stays within its line and its key. */
  ghost predicate Tame(value: string) {
    TAB !in value && NEWLINE !in value && RETURN !in value
  }

  lemma EscapedIsTame(text: string)
    ensures Tame(Escaped(text))
  {
  }

  lemma PlainIsTame(text: string)
    requires Plain(text)
    ensures Tame(text)
  {
  }

  lemma DigitsAreTame(n: nat)
    ensures Tame(Digits(n))
  {
    var text := Digits(n);
    assert forall c | c in text :: IsDigit(c);
  }

  lemma TameIsEscaped(text: string)
    requires Tame(text)
    ensures Escaped(text) == text
  {
    assert forall i | 0 <= i < |text| :: text[i] in text;
  }

  lemma EscapedTwice(text: string)
    ensures Escaped(Escaped(text)) == Escaped(text)
  {
    EscapedIsTame(text);
    TameIsEscaped(Escaped(text));
  }

  function ApplyEntry(r: Reading, e: Entry): Reading {
    match e
    case Set(field, value) => Assign(r, field, value)
    case SourceStart => StartSource(r)
  }

  ghost predicate Writable(e: Entry) { e.Set? ==> Tame(e.value) }

  lemma NoReturn(key: string, value: string)
    requires Tame(value)
    ensures WithoutReturn(key + [TAB] + value) == key + [TAB] + value
  {
    var line := key + [TAB] + value;
    if value != "" {
      assert line[|line| - 1] == value[|value| - 1] && value[|value| - 1] in value;
    }
  }

  lemma SetLine(field: Field, value: string)
    requires Tame(value)
    ensures var line := KeyOf(field) + [TAB] + value;
            && OneLine(line) && IndexOf(line, TAB) == |KeyOf(field)| && line != "source"
            && line[..|KeyOf(field)|] == KeyOf(field) && line[|KeyOf(field)| + 1..] == value
  {
    KeyIsPlain(field);
    PlainIsTame(KeyOf(field));
    hide KeyOf;
    IndexOfSplit(KeyOf(field), TAB, value);
    SourceHasNoTab();
    var line := KeyOf(field) + [TAB] + value;
    assert TAB in line by { assert line[|KeyOf(field)|] == TAB; }
  }

  lemma SourceHasNoTab()
    ensures TAB !in "source" && OneLine("source") && WithoutReturn("source") == "source"
  {
    assert Plain("source");
    PlainIsTame("source");
  }

  /** The reader takes in one written line as its entry says. */
  lemma ParseEntry(r: Reading, e: Entry)
    requires Writable(e)
    ensures ParseLine(r, TextOf(e)) == ApplyEntry(r, e) && OneLine(TextOf(e))
  {
    match e
    case SourceStart => SourceHasNoTab();
    case Set(field, value) =>
      NoReturn(KeyOf(field), value);
      SetLine(field, value);
      FieldInFinds(field, ALL_FIELDS);
      hide KeyOf, Assign;
  }

  // ---------------------------------------------------------------- many lines

  function ApplyAll(r: Reading, entries: seq<Entry>): Reading {
    if entries == [] then r else ApplyEntry(ApplyAll(r, entries[..|entries| - 1]), entries[|entries| - 1])
  }

  ghost predicate AllWritable(entries: seq<Entry>) {
    forall i | 0 <= i < |entries| :: Writable(entries[i])
  }

  lemma {:induction false} ParseEntries(r: Reading, entries: seq<Entry>)
    requires AllWritable(entries)
    ensures ParseLines(r, Texts(entries)) == ApplyAll(r, entries)
    ensures forall line | line in Texts(entries) :: OneLine(line)
  {
    hide ParseLine, ApplyEntry, TextOf, Writable, OneLine;
    if entries != [] {
      var last := |entries| - 1;
      ParseEntries(r, entries[..last]);
      ParseEntry(ApplyAll(r, entries[..last]), entries[last]);
      assert Texts(entries)[..last] == Texts(entries[..last]);
      assert Texts(entries) == Texts(entries[..last]) + [TextOf(entries[last])];
    }
  }

  lemma {:induction false} ApplySplits(r: Reading, a: seq<Entry>, b: seq<Entry>)
    ensures ApplyAll(r, a + b) == ApplyAll(ApplyAll(r, a), b)
  {
    if b == [] {
      assert a + b == a;
    } else {
      var last := |b| - 1;
      assert (a + b)[..|a + b| - 1] == a + b[..last];
      ApplySplits(r, a, b[..last]);
    }
  }

  lemma ApplyOne(r: Reading, before: seq<Entry>, e: Entry)
    ensures ApplyAll(r, before + [e]) == ApplyEntry(ApplyAll(r, before), e)
  {
    assert (before + [e])[..|before|] == before;
  }

  lemma NumberBack(n: Uint64)
    ensures ParseNumber(Digits(n)) == n && Tame(Digits(n))
    ensures n < WORD32 ==> ParseNumber(Digits(n)) % WORD32 == n
  {
    ParseUndoesDigits(n);
    DigitsAreTame(n);
  }

  /** What a manifest keeps of its texts. */
  function CleanedSource(s: Source): Source {
    s.(sourceId := Escaped(s.sourceId), participantId := Escaped(s.participantId), role := Escaped(s.role),
       origin := Escaped(s.origin), fileName := Escaped(s.fileName), sha256 := Escaped(s.sha256))
  }

  function EscapedAll(texts: seq<string>): seq<string> {
    seq(|texts|, (i: nat) requires i < |texts| => Escaped(texts[i]))
  }

  function CleanedSources(sources: seq<Source>): seq<Source> {
    seq(|sources|, (i: nat) requires i < |sources| => CleanedSource(sources[i]))
  }

  /** A manifest with every tab, carriage return and newline of its texts replaced by a space. */
  function Cleaned(m: Manifest): Manifest {
    m.(takeId := Escaped(m.takeId), sessionId := Escaped(m.sessionId),
       applicationVersion := Escaped(m.applicationVersion), mediaFormat := Escaped(m.mediaFormat),
       sources := CleanedSources(m.sources), interruptions := EscapedAll(m.interruptions),
       excludedSources := EscapedAll(m.excludedSources))
  }

  // ---------------------------------------------------------------- the heading

  function HeadingRead(m: Manifest): Manifest {
    Cleaned(m).(sources := [], interruptions := [], excludedSources := [])
  }

  lemma StateBack(state: TakeState)
    ensures Escaped(StateName(state)) == StateName(state) && StateFromName(StateName(state)) == Some(state)
    ensures Tame(StateName(state))
  {
    PlainIsTame(StateName(state));
    TameIsEscaped(StateName(state));
    StateRoundTrip(state);
  }

  lemma HeadingIsRead(m: Manifest)
    ensures ApplyAll(Begin(), Heading(m)) == Reading(HeadingRead(m), true)
  {
    FirstHalf(m);
    SecondHalf(m);
  }

  function FirstFields(m: Manifest): seq<Entry> {
    [Set(Header, Digits(m.manifestVersion))] + [Set(TakeId, Escaped(m.takeId))]
    + [Set(SessionId, Escaped(m.sessionId))] + [Set(StartedAt, Digits(m.startedAt))]
    + [Set(EndedAt, Digits(m.endedAt))]
  }

  function AfterFirst(m: Manifest): Manifest {
    NewManifest().(manifestVersion := m.manifestVersion, takeId := Escaped(m.takeId), sessionId := Escaped(m.sessionId),
                   startedAt := m.startedAt, endedAt := m.endedAt)
  }

  /** One more line. */
  lemma NextLine(before: seq<Entry>, r: Reading, e: Entry) returns (entries: seq<Entry>, after: Reading)
    requires ApplyAll(Begin(), before) == r
    ensures entries == before + [e] && after == ApplyEntry(r, e) && ApplyAll(Begin(), entries) == after
  {
    entries, after := before + [e], ApplyEntry(r, e);
    ApplyOne(Begin(), before, e);
  }

  lemma FirstHalf(m: Manifest)
    ensures ApplyAll(Begin(), FirstFields(m)) == Reading(AfterFirst(m), true)
  {
    FirstValues(m);
    hide Digits, Escaped, ApplyEntry;
    var none: seq<Entry> := [];
    var h1, r1 := NextLine(none, Begin(), Set(Header, Digits(m.manifestVersion)));
    var h2, r2 := NextLine(h1, r1, Set(TakeId, Escaped(m.takeId)));
    var h3, r3 := NextLine(h2, r2, Set(SessionId, Escaped(m.sessionId)));
    var h4, r4 := NextLine(h3, r3, Set(StartedAt, Digits(m.startedAt)));
    var h5, r5 := NextLine(h4, r4, Set(EndedAt, Digits(m.endedAt)));
    assert FirstFields(m) == h5;
  }

  lemma FirstValues(m: Manifest)
    ensures var r1 := ApplyEntry(Begin(), Set(Header, Digits(m.manifestVersion)));
            var r2 := ApplyEntry(r1, Set(TakeId, Escaped(m.takeId)));
            var r3 := ApplyEntry(r2, Set(SessionId, Escaped(m.sessionId)));
            var r4 := ApplyEntry(r3, Set(StartedAt, Digits(m.startedAt)));
            ApplyEntry(r4, Set(EndedAt, Digits(m.endedAt))) == Reading(AfterFirst(m), true)
  {
    NumberBack(m.manifestVersion);
    NumberBack(m.startedAt);
    NumberBack(m.endedAt);
    hide Digits, Escaped, ParseNumber;
  }

  lemma SecondHalf(m: Manifest)
    requires ApplyAll(Begin(), FirstFields(m)) == Reading(AfterFirst(m), true)
    ensures ApplyAll(Begin(), Heading(m)) == Reading(HeadingRead(m), true)
  {
    SecondValues(m);
    hide Digits, Escaped, ApplyEntry, StateName, HeadingRead, AfterFirst;
    var h6, r6 := NextLine(FirstFields(m), Reading(AfterFirst(m), true), Set(SampleRate, Digits(m.sampleRate)));
    var h7, r7 := NextLine(h6, r6, Set(ApplicationVersion, Escaped(m.applicationVersion)));
    var h8, r8 := NextLine(h7, r7, Set(MediaFormat, Escaped(m.mediaFormat)));
    var h9, r9 := NextLine(h8, r8, Set(State, Escaped(StateName(m.state))));
    var h10, r10 := NextLine(h9, r9, Set(DroppedFrames, Digits(m.droppedFrames)));
    assert Heading(m) == h10;
  }

  lemma SecondValues(m: Manifest)
    ensures var r5 := Reading(AfterFirst(m), true);
            var r6 := ApplyEntry(r5, Set(SampleRate, Digits(m.sampleRate)));
            var r7 := ApplyEntry(r6, Set(ApplicationVersion, Escaped(m.applicationVersion)));
            var r8 := ApplyEntry(r7, Set(MediaFormat, Escaped(m.mediaFormat)));
            var r9 := ApplyEntry(r8, Set(State, Escaped(StateName(m.state))));
            ApplyEntry(r9, Set(DroppedFrames, Digits(m.droppedFrames))) == Reading(HeadingRead(m), true)
  {
    NumberBack(m.sampleRate);
    NumberBack(m.droppedFrames);
    StateBack(m.state);
    hide Digits, Escaped, ParseNumber, StateFromName, StateName;
  }

  // ---------------------------------------------------------------- the lists

  lemma {:induction false} ExcludedAreRead(r: Reading, values: seq<string>)
    ensures ApplyAll(r, Repeated(ExcludedSource, values)) ==
            r.(manifest := r.manifest.(excludedSources := r.manifest.excludedSources + EscapedAll(values)))
  {
    if values != [] {
      var last := |values| - 1;
      ExcludedAreRead(r, values[..last]);
      ApplyOne(r, Repeated(ExcludedSource, values[..last]), Set(ExcludedSource, Escaped(values[last])));
      assert EscapedAll(values) == EscapedAll(values[..last]) + [Escaped(values[last])];
    }
  }

  lemma {:induction false} InterruptionsAreRead(r: Reading, values: seq<string>)
    ensures ApplyAll(r, Repeated(Interruption, values)) ==
            r.(manifest := r.manifest.(interruptions := r.manifest.interruptions + EscapedAll(values)))
  {
    if values != [] {
      var last := |values| - 1;
      InterruptionsAreRead(r, values[..last]);
      ApplyOne(r, Repeated(Interruption, values[..last]), Set(Interruption, Escaped(values[last])));
      assert EscapedAll(values) == EscapedAll(values[..last]) + [Escaped(values[last])];
    }
  }

  /** Reading with a source last. */
  function EndingIn(r: Reading, s: Source): Reading {
    r.(manifest := r.manifest.(sources := r.manifest.sources + [s]))
  }

  lemma SetInSource(r: Reading, s: Source, field: Field, value: string)
    requires field.SourceId? || field.ParticipantId? || field.Role? || field.Origin? || field.FileName?
             || field.Frames? || field.KnownGapFrames? || field.Sha256?
    ensures ApplyEntry(EndingIn(r, s), Set(field, value)) == EndingIn(r, AssignSource(s, field, value))
  {
    var sources := r.manifest.sources + [s];
    assert sources[|sources| - 1 := AssignSource(s, field, value)] == r.manifest.sources + [AssignSource(s, field, value)];
  }

  lemma SourceIsRead(r: Reading, s: Source)
    ensures ApplyAll(r, SourceEntries(s)) == EndingIn(r, CleanedSource(s))
  {
    SourceValues(s);
    SourceStarts(r);
    hide Digits, Escaped, ApplyAll, ApplyEntry, EndingIn, AssignSource, CleanedSource;
    var h2, s2 := NextField(r, [SourceStart], NewSource(), SourceId, Escaped(s.sourceId));
    var h3, s3 := NextField(r, h2, s2, ParticipantId, Escaped(s.participantId));
    var h4, s4 := NextField(r, h3, s3, Role, Escaped(s.role));
    var h5, s5 := NextField(r, h4, s4, Origin, Escaped(s.origin));
    var h6, s6 := NextField(r, h5, s5, FileName, Escaped(s.fileName));
    var h7, s7 := NextField(r, h6, s6, Frames, Digits(s.frames));
    var h8, s8 := NextField(r, h7, s7, KnownGapFrames, Digits(s.knownGapFrames));
    var h9, s9 := NextField(r, h8, s8, Sha256, Escaped(s.sha256));
    assert SourceEntries(s) == h9;
  }

  lemma SourceStarts(r: Reading)
    ensures ApplyAll(r, [SourceStart]) == EndingIn(r, NewSource())
  {
    ApplyOne(r, [], SourceStart);
    assert [] + [SourceStart] == [SourceStart];
  }

  lemma SourceValues(s: Source)
    ensures var s2 := AssignSource(NewSource(), SourceId, Escaped(s.sourceId));
            var s3 := AssignSource(s2, ParticipantId, Escaped(s.participantId));
            var s4 := AssignSource(s3, Role, Escaped(s.role));
            var s5 := AssignSource(s4, Origin, Escaped(s.origin));
            var s6 := AssignSource(s5, FileName, Escaped(s.fileName));
            var s7 := AssignSource(s6, Frames, Digits(s.frames));
            var s8 := AssignSource(s7, KnownGapFrames, Digits(s.knownGapFrames));
            AssignSource(s8, Sha256, Escaped(s.sha256)) == CleanedSource(s)
  {
    NumberBack(s.frames);
    NumberBack(s.knownGapFrames);
    hide Digits, Escaped, ParseNumber;
  }

  lemma NextField(r: Reading, before: seq<Entry>, s: Source, field: Field, value: string)
    returns (entries: seq<Entry>, next: Source)
    requires ApplyAll(r, before) == EndingIn(r, s)
    requires field.SourceId? || field.ParticipantId? || field.Role? || field.Origin? || field.FileName?
             || field.Frames? || field.KnownGapFrames? || field.Sha256?
    ensures entries == before + [Set(field, value)] && next == AssignSource(s, field, value)
    ensures ApplyAll(r, entries) == EndingIn(r, next)
  {
    entries, next := before + [Set(field, value)], AssignSource(s, field, value);
    ApplyOne(r, before, Set(field, value));
    SetInSource(r, s, field, value);
  }

  lemma {:induction false} SourcesAreRead(r: Reading, sources: seq<Source>)
    ensures ApplyAll(r, AllSources(sources)) ==
            r.(manifest := r.manifest.(sources := r.manifest.sources + CleanedSources(sources)))
  {
    if sources != [] {
      var last := |sources| - 1;
      SourcesAreRead(r, sources[..last]);
      ApplySplits(r, AllSources(sources[..last]), SourceEntries(sources[last]));
      SourceIsRead(ApplyAll(r, AllSources(sources[..last])), sources[last]);
      hide CleanedSource, SourceEntries, ApplyAll;
      assert CleanedSources(sources) == CleanedSources(sources[..last]) + [CleanedSource(sources[last])];
    }
  }

  // ---------------------------------------------------------------- writable entries

  lemma {:induction false} RepeatedIsWritable(field: Field, values: seq<string>)
    ensures AllWritable(Repeated(field, values))
  {
    if values != [] {
      RepeatedIsWritable(field, values[..|values| - 1]);
      EscapedIsTame(values[|values| - 1]);
      hide Escaped, Tame;
    }
  }

  lemma HeadingIsWritable(m: Manifest)
    ensures AllWritable(Heading(m))
  {
    DigitsAreTame(m.manifestVersion);
    DigitsAreTame(m.startedAt);
    DigitsAreTame(m.endedAt);
    DigitsAreTame(m.sampleRate);
    DigitsAreTame(m.droppedFrames);
    EscapedIsTame(m.takeId);
    EscapedIsTame(m.sessionId);
    EscapedIsTame(m.applicationVersion);
    EscapedIsTame(m.mediaFormat);
    EscapedIsTame(StateName(m.state));
    hide Digits, Escaped, Tame, StateName;
  }

  lemma SourceIsWritable(s: Source)
    ensures AllWritable(SourceEntries(s))
  {
    DigitsAreTame(s.frames);
    DigitsAreTame(s.knownGapFrames);
    EscapedIsTame(s.sourceId);
    EscapedIsTame(s.participantId);
    EscapedIsTame(s.role);
    EscapedIsTame(s.origin);
    EscapedIsTame(s.fileName);
    EscapedIsTame(s.sha256);
    hide Digits, Escaped, Tame;
  }

  lemma {:induction false} SourcesAreWritable(sources: seq<Source>)
    ensures AllWritable(AllSources(sources))
  {
    if sources != [] {
      SourcesAreWritable(sources[..|sources| - 1]);
      SourceIsWritable(sources[|sources| - 1]);
      hide SourceEntries, Writable;
    }
  }

  lemma EntriesAreWritable(m: Manifest)
    ensures AllWritable(Entries(m))
  {
    HeadingIsWritable(m);
    RepeatedIsWritable(ExcludedSource, m.excludedSources);
    RepeatedIsWritable(Interruption, m.interruptions);
    SourcesAreWritable(m.sources);
    hide Heading, Repeated, AllSources, Writable;
  }

  // ---------------------------------------------------------------- round trips

  /** For every manifest, with any sources, exclusions and interruptions: reading what was written gives the
      manifest back, with line-breaking characters of its texts turned into spaces. */
  lemma ParseUndoesSerialise(m: Manifest)
    ensures ParseTake(SerialiseTake(m)) == Some(Cleaned(m))
  {
    EntriesAreWritable(m);
    hide Writable, ApplyAll, Heading, Repeated, AllSources, ParseLine, TextOf;
    ParseEntries(Begin(), Entries(m));
    SplitUndoesJoin(Texts(Entries(m)));
    var h, e, i := Heading(m), Repeated(ExcludedSource, m.excludedSources), Repeated(Interruption, m.interruptions);
    ApplySplits(Begin(), h, e);
    ApplySplits(Begin(), h + e, i);
    ApplySplits(Begin(), h + e + i, AllSources(m.sources));
    HeadingIsRead(m);
    var r1 := Reading(HeadingRead(m), true);
    ExcludedAreRead(r1, m.excludedSources);
    var r2 := ApplyAll(r1, e);
    InterruptionsAreRead(r2, m.interruptions);
    var r3 := ApplyAll(r2, i);
    SourcesAreRead(r3, m.sources);
    NothingBefore(m);
  }

  lemma NothingBefore(m: Manifest)
    ensures HeadingRead(m).(excludedSources := HeadingRead(m).excludedSources + EscapedAll(m.excludedSources),
                            interruptions := HeadingRead(m).interruptions + EscapedAll(m.interruptions),
                            sources := HeadingRead(m).sources + CleanedSources(m.sources)) == Cleaned(m)
  {
    hide CleanedSource, Escaped;
  }

  lemma {:induction false} RepeatedCleaned(field: Field, values: seq<string>)
    ensures Repeated(field, EscapedAll(values)) == Repeated(field, values)
  {
    if values != [] {
      var last := |values| - 1;
      RepeatedCleaned(field, values[..last]);
      EscapedTwice(values[last]);
      assert EscapedAll(values)[..last] == EscapedAll(values[..last]);
    }
  }

  lemma SourceCleaned(s: Source)
    ensures SourceEntries(CleanedSource(s)) == SourceEntries(s)
  {
    EscapedTwice(s.sourceId);
    EscapedTwice(s.participantId);
    EscapedTwice(s.role);
    EscapedTwice(s.origin);
    EscapedTwice(s.fileName);
    EscapedTwice(s.sha256);
    hide Escaped, Digits;
  }

  lemma {:induction false} SourcesCleaned(sources: seq<Source>)
    ensures AllSources(CleanedSources(sources)) == AllSources(sources)
  {
    if sources != [] {
      var last := |sources| - 1;
      SourcesCleaned(sources[..last]);
      SourceCleaned(sources[last]);
      assert CleanedSources(sources)[..last] == CleanedSources(sources[..last]);
      hide SourceEntries, CleanedSource;
    }
  }

  /** Writing what was read gives the identical text: a manifest survives any number of rewrites. */
  lemma RewritingIsStable(m: Manifest)
    ensures SerialiseTake(Cleaned(m)) == SerialiseTake(m)
    ensures ParseTake(SerialiseTake(Cleaned(m))) == Some(Cleaned(m))
  {
    ParseUndoesSerialise(m);
    RepeatedCleaned(ExcludedSource, m.excludedSources);
    RepeatedCleaned(Interruption, m.interruptions);
    SourcesCleaned(m.sources);
    EscapedTwice(m.takeId);
    EscapedTwice(m.sessionId);
    EscapedTwice(m.applicationVersion);
    EscapedTwice(m.mediaFormat);
    hide Escaped, Repeated, AllSources, ParseTake, Digits, Texts, Joined;
    assert Heading(Cleaned(m)) == Heading(m);
  }

  /** The same lines as a Windows editor would end them. */
  function Returned(lines: seq<string>): seq<string> {
    seq(|lines|, (i: nat) requires i < |lines| => lines[i] + [RETURN])
  }

  lemma ReturnIsDropped(r: Reading, e: Entry)
    requires Writable(e)
    ensures ParseLine(r, TextOf(e) + [RETURN]) == ParseLine(r, TextOf(e))
    ensures OneLine(TextOf(e) + [RETURN])
  {
    ParseEntry(r, e);
    var line := TextOf(e) + [RETURN];
    assert line[..|line| - 1] == TextOf(e);
    match e
    case SourceStart => SourceHasNoTab();
    case Set(field, value) => NoReturn(KeyOf(field), value);
    hide KeyOf, Assign, FieldIn, IndexOf;
  }

  lemma {:induction false} ReturnedAreRead(r: Reading, entries: seq<Entry>)
    requires AllWritable(entries)
    ensures ParseLines(r, Returned(Texts(entries))) == ParseLines(r, Texts(entries))
    ensures forall line | line in Returned(Texts(entries)) :: OneLine(line)
  {
    hide ParseLine, TextOf, Writable, OneLine;
    if entries != [] {
      var last := |entries| - 1;
      ReturnedAreRead(r, entries[..last]);
      ReturnIsDropped(ParseLines(r, Texts(entries[..last])), entries[last]);
      assert Texts(entries) == Texts(entries[..last]) + [TextOf(entries[last])];
      assert Returned(Texts(entries)) == Returned(Texts(entries[..last])) + [TextOf(entries[last]) + [RETURN]];
      assert Returned(Texts(entries))[..last] == Returned(Texts(entries[..last]));
      assert Texts(entries)[..last] == Texts(entries[..last]);
    }
  }

  /** A manifest whose line endings were converted reads the same. */
  lemma ConvertedLineEndingsAreRead(m: Manifest)
    ensures ParseTake(Joined(Returned(Texts(Entries(m))))) == Some(Cleaned(m))
  {
    EntriesAreWritable(m);
    ReturnedAreRead(Begin(), Entries(m));
    ParseEntries(Begin(), Entries(m));
    SplitUndoesJoin(Returned(Texts(Entries(m))));
    SplitUndoesJoin(Texts(Entries(m)));
    ParseUndoesSerialise(m);
    hide Entries, Texts, Returned, Joined, ParseLines;
  }
}

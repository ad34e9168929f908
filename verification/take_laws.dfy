/** The take manifest's text as it stands in the file, and what a reader makes of text that is not all its own. */
module TakeLaws {
  import opened TextLines
  import opened TakeFormat

  // ---------------------------------------------------------------- the text

  function Line(key: string, value: string): string { key + "\t" + value + "\n" }

  function TextLine(key: string, value: string): string { Line(key, Escaped(value)) }

  function NumberLine(key: string, n: Uint64): string { Line(key, Digits(n)) }

  /** A take's own lines. */
  function TakeText(m: Manifest): string {
    NumberLine("jamlink-take", m.manifestVersion) + TextLine("takeId", m.takeId) + TextLine("sessionId", m.sessionId)
    + NumberLine("startedAt", m.startedAt) + NumberLine("endedAt", m.endedAt) + NumberLine("sampleRate", m.sampleRate)
    + TextLine("applicationVersion", m.applicationVersion) + TextLine("mediaFormat", m.mediaFormat)
    + TextLine("state", NameInFile(m.state)) + NumberLine("droppedFrames", m.droppedFrames)
  }

  function NameInFile(state: TakeState): string {
    if state == FailedTake then "Failed"
    else if state == Ready then "Ready"
    else if state == RecoveredNeedsReview then "RecoveredNeedsReview"
    else if state == Finalizing then "Finalizing"
    else if state == Stopping then "Stopping"
    else if state == Recording then "Recording"
    else "Preparing"
  }

  function SourceHeading(): string { "source\n" }

  function SourceText(s: Source): string {
    SourceHeading() + TextLine("  sourceId", s.sourceId) + TextLine("  participantId", s.participantId)
    + TextLine("  role", s.role) + TextLine("  origin", s.origin) + TextLine("  fileName", s.fileName)
    + NumberLine("  frames", s.frames) + NumberLine("  knownGapFrames", s.knownGapFrames)
    + TextLine("  sha256", s.sha256)
  }

  function EachLine(key: string, values: seq<string>): string {
    if values == [] then "" else TextLine(key, values[0]) + EachLine(key, values[1..])
  }

  function EachSource(sources: seq<Source>): string {
    if sources == [] then "" else SourceText(sources[0]) + EachSource(sources[1..])
  }

  lemma {:induction false} JoinedTexts(a: seq<Entry>, b: seq<Entry>)
    ensures Joined(Texts(a + b)) == Joined(Texts(a)) + Joined(Texts(b))
  {
    hide TextOf, Joined;
    assert Texts(a + b) == Texts(a) + Texts(b);
    JoinedAppends(Texts(a), Texts(b));
  }

  lemma OneEntry(e: Entry)
    ensures Joined(Texts([e])) == TextOf(e) + "\n"
  {
    assert Texts([e]) == [TextOf(e)] && [TextOf(e)][1..] == [];
    assert Joined([]) == "";
  }

  lemma OneField(field: Field, value: string)
    ensures Joined(Texts([Set(field, value)])) == Line(KeyOf(field), value)
  {
    OneEntry(Set(field, value));
    hide KeyOf;
  }

  lemma Also(a: seq<Entry>, field: Field, value: string)
    ensures Joined(Texts(a + [Set(field, value)])) == Joined(Texts(a)) + Line(KeyOf(field), value)
  {
    JoinedTexts(a, [Set(field, value)]);
    OneField(field, value);
    hide KeyOf;
  }

  lemma NamesInFile(state: TakeState)
    ensures StateName(state) == NameInFile(state)
  {
  }

  lemma HeadingIsTakeText(m: Manifest)
    ensures Joined(Texts(Heading(m))) == TakeText(m)
  {
    NamesInFile(m.state);
    hide StateName, NameInFile, Joined, Texts, Digits, Escaped, Line;
    OneField(Header, Digits(m.manifestVersion));
    var a := [Set(Header, Digits(m.manifestVersion))];
    Also(a, TakeId, Escaped(m.takeId));
    var b := a + [Set(TakeId, Escaped(m.takeId))];
    Also(b, SessionId, Escaped(m.sessionId));
    var c := b + [Set(SessionId, Escaped(m.sessionId))];
    Also(c, StartedAt, Digits(m.startedAt));
    var d := c + [Set(StartedAt, Digits(m.startedAt))];
    Also(d, EndedAt, Digits(m.endedAt));
    var e := d + [Set(EndedAt, Digits(m.endedAt))];
    Also(e, SampleRate, Digits(m.sampleRate));
    var f := e + [Set(SampleRate, Digits(m.sampleRate))];
    Also(f, ApplicationVersion, Escaped(m.applicationVersion));
    var g := f + [Set(ApplicationVersion, Escaped(m.applicationVersion))];
    Also(g, MediaFormat, Escaped(m.mediaFormat));
    var h := g + [Set(MediaFormat, Escaped(m.mediaFormat))];
    Also(h, State, Escaped(StateName(m.state)));
    var i := h + [Set(State, Escaped(StateName(m.state)))];
    Also(i, DroppedFrames, Digits(m.droppedFrames));
  }

  lemma OneHeading()
    ensures Joined(Texts([SourceStart])) == SourceHeading()
  {
    OneEntry(SourceStart);
    assert "source" + "\n" == "source\n";
  }

  lemma SourceEnds(a: seq<Entry>, s: Source)
    ensures Joined(Texts(a + [Set(Origin, Escaped(s.origin))] + [Set(FileName, Escaped(s.fileName))]
                         + [Set(Frames, Digits(s.frames))] + [Set(KnownGapFrames, Digits(s.knownGapFrames))]
                         + [Set(Sha256, Escaped(s.sha256))]))
            == Joined(Texts(a)) + Line("  origin", Escaped(s.origin)) + Line("  fileName", Escaped(s.fileName))
               + Line("  frames", Digits(s.frames)) + Line("  knownGapFrames", Digits(s.knownGapFrames))
               + Line("  sha256", Escaped(s.sha256))
  {
    hide Joined, Texts, Digits, Escaped, Line;
    Also(a, Origin, Escaped(s.origin));
    var e := a + [Set(Origin, Escaped(s.origin))];
    Also(e, FileName, Escaped(s.fileName));
    var f := e + [Set(FileName, Escaped(s.fileName))];
    Also(f, Frames, Digits(s.frames));
    var g := f + [Set(Frames, Digits(s.frames))];
    Also(g, KnownGapFrames, Digits(s.knownGapFrames));
    var h := g + [Set(KnownGapFrames, Digits(s.knownGapFrames))];
    Also(h, Sha256, Escaped(s.sha256));
  }

  lemma SourceStarts(s: Source)
    ensures Joined(Texts([SourceStart] + [Set(SourceId, Escaped(s.sourceId))]
                         + [Set(ParticipantId, Escaped(s.participantId))] + [Set(Role, Escaped(s.role))]))
            == SourceHeading() + Line("  sourceId", Escaped(s.sourceId))
               + Line("  participantId", Escaped(s.participantId)) + Line("  role", Escaped(s.role))
  {
    OneHeading();
    hide Joined, Texts, Escaped, Line, SourceHeading;
    Also([SourceStart], SourceId, Escaped(s.sourceId));
    var b := [SourceStart] + [Set(SourceId, Escaped(s.sourceId))];
    Also(b, ParticipantId, Escaped(s.participantId));
    var c := b + [Set(ParticipantId, Escaped(s.participantId))];
    Also(c, Role, Escaped(s.role));
  }

  lemma SourceIsSourceText(s: Source)
    ensures Joined(Texts(SourceEntries(s))) == SourceText(s)
  {
    hide Joined, Texts, Digits, Escaped, Line, SourceHeading, KeyOf;
    SourceStarts(s);
    SourceEnds([SourceStart] + [Set(SourceId, Escaped(s.sourceId))] + [Set(ParticipantId, Escaped(s.participantId))]
               + [Set(Role, Escaped(s.role))], s);
  }

  lemma {:induction false} EachLineAppends(key: string, values: seq<string>, last: string)
    ensures EachLine(key, values + [last]) == EachLine(key, values) + TextLine(key, last)
  {
    hide TextLine;
    if values != [] {
      EachLineAppends(key, values[1..], last);
      assert (values + [last])[1..] == values[1..] + [last];
    }
  }

  lemma {:induction false} RepeatedIsEachLine(field: Field, values: seq<string>)
    ensures Joined(Texts(Repeated(field, values))) == EachLine(KeyOf(field), values)
  {
    hide KeyOf, Escaped;
    if values == [] {
      assert Texts([]) == [];
    } else {
      var front, last := values[..|values| - 1], values[|values| - 1];
      RepeatedIsEachLine(field, front);
      EachLineAppends(KeyOf(field), front, last);
      assert front + [last] == values;
      hide Joined, Texts, Line;
      Also(Repeated(field, front), field, Escaped(last));
    }
  }

  lemma {:induction false} EachSourceAppends(sources: seq<Source>, last: Source)
    ensures EachSource(sources + [last]) == EachSource(sources) + SourceText(last)
  {
    hide SourceText;
    if sources != [] {
      EachSourceAppends(sources[1..], last);
      assert (sources + [last])[1..] == sources[1..] + [last];
    }
  }

  lemma {:induction false} AllSourcesAreEachSource(sources: seq<Source>)
    ensures Joined(Texts(AllSources(sources))) == EachSource(sources)
  {
    hide SourceText, SourceEntries;
    if sources == [] {
      assert Texts([]) == [];
    } else {
      var front, last := sources[..|sources| - 1], sources[|sources| - 1];
      AllSourcesAreEachSource(front);
      EachSourceAppends(front, last);
      assert front + [last] == sources;
      SourceIsSourceText(last);
      JoinedTexts(AllSources(front), SourceEntries(last));
    }
  }

  /** What is written, line by line and key by key as it stands in the file: the take's own lines, then what was
      excluded, what interrupted it, and each source under its heading. */
  lemma WrittenText(m: Manifest)
    ensures SerialiseTake(m)
            == TakeText(m) + EachLine("excluded_source", m.excludedSources) + EachLine("interruption", m.interruptions)
               + EachSource(m.sources)
  {
    HeadingIsTakeText(m);
    RepeatedIsEachLine(ExcludedSource, m.excludedSources);
    RepeatedIsEachLine(Interruption, m.interruptions);
    AllSourcesAreEachSource(m.sources);
    hide Joined, Texts, TakeText, Heading, EachLine, EachSource, AllSources, Repeated;
    JoinedTexts(Heading(m), Repeated(ExcludedSource, m.excludedSources));
    JoinedTexts(Heading(m) + Repeated(ExcludedSource, m.excludedSources), Repeated(Interruption, m.interruptions));
    JoinedTexts(Heading(m) + Repeated(ExcludedSource, m.excludedSources) + Repeated(Interruption, m.interruptions),
                AllSources(m.sources));
  }

  // ---------------------------------------------------------------- reading

  /** A line, once a return at its end is dropped, sets this key to this value. */
  predicate Sets(raw: string, key: string, value: string) {
    WithoutReturn(raw) == key + [TAB] + value
  }

  lemma {:induction false} FieldInKnows(key: string, fields: seq<Field>)
    ensures FieldIn(key, fields).Some? ==> KeyOf(FieldIn(key, fields).value) == key
    ensures FieldIn(key, fields).None? ==> forall f | f in fields :: KeyOf(f) != key
  {
    hide KeyOf;
    if fields != [] {
      FieldInKnows(key, fields[1..]);
    }
  }

  lemma AllFieldsAreAll(f: Field)
    ensures f in ALL_FIELDS
  {
    var place :=
      match f
      case Header => 0 case TakeId => 1 case SessionId => 2 case StartedAt => 3 case EndedAt => 4 case SampleRate => 5
      case ApplicationVersion => 6 case MediaFormat => 7 case State => 8 case DroppedFrames => 9
      case ExcludedSource => 10 case Interruption => 11 case SourceId => 12 case ParticipantId => 13 case Role => 14
      case Origin => 15 case FileName => 16 case Frames => 17 case KnownGapFrames => 18 case Sha256 => 19;
    assert ALL_FIELDS[place] == f;
  }

  /** A line that sets a key that is known assigns its field. */
  lemma KnownLineAssigns(r: Reading, raw: string, field: Field, value: string)
    requires Sets(raw, KeyOf(field), value)
    ensures ParseLine(r, raw) == Assign(r, field, value)
  {
    FieldLine(field, value);
    AllFieldsAreAll(field);
    FieldInFinds(field, ALL_FIELDS);
    hide KeyOf, Assign, FieldIn, IndexOf, WithoutReturn;
  }

  lemma FieldLine(field: Field, value: string)
    ensures var key, line := KeyOf(field), KeyOf(field) + [TAB] + value;
            && line != "source" && IndexOf(line, TAB) == |key| < |line|
            && line[..|key|] == key && line[|key| + 1..] == value
  {
    KeyIsPlain(field);
    KeyHasNoTab(KeyOf(field));
    IndexOfSplit(KeyOf(field), TAB, value);
    NotSource(KeyOf(field), value);
    hide KeyOf, IndexOf;
  }

  lemma KeyHasNoTab(key: string)
    requires Plain(key)
    ensures TAB !in key
  {
  }

  lemma NotSource(key: string, value: string)
    ensures key + [TAB] + value != "source"
  {
    var line := key + [TAB] + value;
    assert line[|key|] == TAB;
    if line == "source" {
      SourceHasNoTab(|key|);
    }
  }

  lemma SourceHasNoTab(i: nat)
    requires i < 6
    ensures "source"[i] != '\t'
  {
    var s := "source";
    assert s[0] == 's' && s[1] == 'o' && s[2] == 'u' && s[3] == 'r' && s[4] == 'c' && s[5] == 'e';
  }

  lemma KnownKeySets(raw: string)
    requires var line := WithoutReturn(raw);
             var tab := IndexOf(line, TAB);
             tab < |line| && FieldIn(line[..tab], ALL_FIELDS).Some?
    ensures exists f: Field, value :: Sets(raw, KeyOf(f), value)
  {
    var line := WithoutReturn(raw);
    var tab := IndexOf(line, TAB);
    FieldInKnows(line[..tab], ALL_FIELDS);
    hide KeyOf, FieldIn, IndexOf, WithoutReturn;
    var f := FieldIn(line[..tab], ALL_FIELDS).value;
    assert line == KeyOf(f) + [TAB] + line[tab + 1..];
    assert Sets(raw, KeyOf(f), line[tab + 1..]);
  }

  /** Any other line starts a source or is passed over, whatever it says. */
  lemma OtherLinesAreSkipped(r: Reading, raw: string)
    requires forall f: Field, value :: !Sets(raw, KeyOf(f), value)
    ensures ParseLine(r, raw) == if WithoutReturn(raw) == "source" then StartSource(r) else r
  {
    var line := WithoutReturn(raw);
    var tab := IndexOf(line, TAB);
    hide KeyOf, FieldIn, IndexOf, Assign, Sets;
    if tab < |line| && FieldIn(line[..tab], ALL_FIELDS).Some? {
      KnownKeySets(raw);
    }
  }

  /** The first part of a line, if it sets something. */
  lemma LineCases(r: Reading, raw: string) returns (field: Option<Field>, value: string)
    ensures field.Some? ==> Sets(raw, KeyOf(field.value), value) && ParseLine(r, raw) == Assign(r, field.value, value)
    ensures field.None? ==> (forall f: Field, v :: !Sets(raw, KeyOf(f), v))
                            && ParseLine(r, raw) == if WithoutReturn(raw) == "source" then StartSource(r) else r
  {
    hide KeyOf, ParseLine, Assign;
    if f: Field, v :| Sets(raw, KeyOf(f), v) {
      KnownLineAssigns(r, raw, f, v);
      field, value := Some(f), v;
    } else {
      OtherLinesAreSkipped(r, raw);
      field, value := None, "";
    }
  }

  ghost predicate IsHeader(raw: string) {
    exists value :: Sets(raw, "jamlink-take", value)
  }

  ghost predicate HasHeader(lines: seq<string>) {
    exists i :: 0 <= i < |lines| && IsHeader(lines[i])
  }

  lemma {:induction false} HeaderIsSeen(lines: seq<string>)
    ensures ParseLines(Begin(), lines).sawHeader <==> HasHeader(lines)
    decreases |lines|
  {
    hide ParseLine, IsHeader;
    if lines != [] {
      var front, last := lines[..|lines| - 1], lines[|lines| - 1];
      HeaderIsSeen(front);
      LineSeesHeader(ParseLines(Begin(), front), last);
      assert front + [last] == lines;
    }
  }

  lemma LineSeesHeader(r: Reading, raw: string)
    ensures ParseLine(r, raw).sawHeader <==> r.sawHeader || IsHeader(raw)
  {
    var field, value := LineCases(r, raw);
    AssignSeesHeader(r, field, value);
    SetsOneKey(raw, field, value);
    hide ParseLine, Assign, Sets, WithoutReturn, StartSource, KeyOf;
  }

  lemma AssignSeesHeader(r: Reading, field: Option<Field>, value: string)
    ensures field.Some? ==> Assign(r, field.value, value).sawHeader == (r.sawHeader || field.value == Header)
    ensures StartSource(r).sawHeader == r.sawHeader
  {
    hide AssignSource;
  }

  /** A line sets one key only. */
  lemma SetsOneKey(raw: string, field: Option<Field>, value: string)
    requires field.Some? ==> Sets(raw, KeyOf(field.value), value)
    requires field.None? ==> forall f: Field, v :: !Sets(raw, KeyOf(f), v)
    ensures (exists v :: Sets(raw, "jamlink-take", v)) <==> field == Some(Header)
    ensures (exists v :: Sets(raw, "state", v)) <==> field == Some(State)
  {
    assert KeyOf(Header) == "jamlink-take" && KeyOf(State) == "state";
    if v :| Sets(raw, "jamlink-take", v) {
      if field.Some? { SameKey(raw, field.value, value, Header, v); }
      assert Sets(raw, KeyOf(Header), v);
    }
    if v :| Sets(raw, "state", v) {
      if field.Some? { SameKey(raw, field.value, value, State, v); }
      assert Sets(raw, KeyOf(State), v);
    }
    hide KeyOf;
  }

  lemma SameKey(raw: string, a: Field, u: string, b: Field, v: string)
    requires Sets(raw, KeyOf(a), u) && Sets(raw, KeyOf(b), v)
    ensures a == b && u == v
  {
    FieldLine(a, u);
    FieldLine(b, v);
    hide KeyOf, IndexOf;
    KeysDiffer(a, b);
  }

  /** A text is a manifest if and only if one of its lines is the header. */
  lemma HeaderDecides(text: string)
    ensures ParseTake(text).Some? <==> HasHeader(SplitLines(text))
  {
    HeaderIsSeen(SplitLines(text));
    hide ParseLines, HasHeader, SplitLines;
  }

  predicate SaysState(raw: string) { "state\t" <= WithoutReturn(raw) }

  predicate SaysReady(raw: string) { WithoutReturn(raw) == "state\tReady" }

  function StateSaid(raw: string): TakeState
    requires SaysState(raw)
  {
    StateFor(WithoutReturn(raw)[6..])
  }

  /** What the last state line says. */
  function LastState(lines: seq<string>): TakeState {
    if lines == [] then Preparing
    else
      var last := lines[|lines| - 1];
      if SaysState(last) then StateSaid(last) else LastState(lines[..|lines| - 1])
  }

  /** A state that this build does not know needs review. */
  function StateFor(name: string): TakeState {
    if name == "Preparing" then Preparing
    else if name == "Recording" then Recording
    else if name == "Stopping" then Stopping
    else if name == "Finalizing" then Finalizing
    else if name == "Ready" then Ready
    else if name == "Failed" then FailedTake
    else RecoveredNeedsReview
  }

  lemma StateNamesRead(name: string)
    ensures StateFor(name) == match StateFromName(name) case Some(state) => state case None => RecoveredNeedsReview
  {
    StateInKnows(name, ALL_STATES);
    hide StateIn;
    NamesInFile(Preparing);
    NamesInFile(Recording);
    NamesInFile(Stopping);
    NamesInFile(Finalizing);
    NamesInFile(Ready);
    NamesInFile(FailedTake);
    NamesInFile(RecoveredNeedsReview);
    AllStatesAreAll(Preparing);
    AllStatesAreAll(Recording);
    AllStatesAreAll(Stopping);
    AllStatesAreAll(Finalizing);
    AllStatesAreAll(Ready);
    AllStatesAreAll(FailedTake);
  }

  lemma AllStatesAreAll(state: TakeState)
    ensures state in ALL_STATES
  {
    var states := ALL_STATES;
    assert states[0] == Preparing && states[1] == Recording && states[2] == Stopping && states[3] == Finalizing;
    assert states[4] == Ready && states[5] == RecoveredNeedsReview && states[6] == FailedTake;
  }

  lemma {:induction false} StateInKnows(name: string, states: seq<TakeState>)
    ensures StateIn(name, states).Some? ==> StateName(StateIn(name, states).value) == name
    ensures StateIn(name, states).None? ==> forall s | s in states :: StateName(s) != name
  {
    hide StateName;
    if states != [] {
      StateInKnows(name, states[1..]);
    }
  }

  lemma StateKey()
    ensures KeyOf(State) == "state"
  {
  }

  lemma SetsState(raw: string)
    ensures SaysState(raw) ==> Sets(raw, "state", WithoutReturn(raw)[6..])
    ensures forall v :: Sets(raw, "state", v) ==> SaysState(raw) && v == WithoutReturn(raw)[6..]
  {
    var line := WithoutReturn(raw);
    assert "state" + [TAB] == "state\t";
    forall v | Sets(raw, "state", v) ensures "state\t" <= line && v == line[6..] {
      assert line == "state" + [TAB] + v;
    }
    if "state\t" <= line {
      assert line == "state\t" + line[6..];
    }
  }

  lemma AssignState(r: Reading, field: Option<Field>, value: string)
    ensures field.Some? ==> Assign(r, field.value, value).manifest.state
                            == (if field.value == State then StateFor(value) else r.manifest.state)
    ensures StartSource(r).manifest.state == r.manifest.state
  {
    StateNamesRead(value);
    hide AssignSource, StateFor, StateFromName;
  }

  /** The state that is read is the one on the last state line, whatever else the text holds: a take is taken for
      finished only if that line says so, and a state that is not known counts as needing review. */
  lemma {:induction false} LastStateCounts(lines: seq<string>)
    ensures ParseLines(Begin(), lines).manifest.state == LastState(lines)
    decreases |lines|
  {
    if lines != [] {
      var front, last := lines[..|lines| - 1], lines[|lines| - 1];
      LastStateCounts(front);
      var r := ParseLines(Begin(), front);
      var field, value := LineCases(r, last);
      AssignState(r, field, value);
      SetsOneKey(last, field, value);
      SetsState(last);
      StateKey();
      hide ParseLine, Assign, StateFor, KeyOf;
    }
  }

  lemma FinishedOnlyIfItSaysSo(text: string)
    requires ParseTake(text).Some? && ParseTake(text).value.state == Ready
    ensures EndsReady(SplitLines(text))
  {
    LastStateCounts(SplitLines(text));
    hide SplitLines, ParseLines, EndsReady, LastState;
    LastStateLine(SplitLines(text));
  }

  lemma ReadyLine(raw: string)
    requires SaysState(raw) && StateSaid(raw) == Ready
    ensures SaysReady(raw)
  {
    var line := WithoutReturn(raw);
    assert line == "state\t" + line[6..] && "state\t" + "Ready" == "state\tReady";
  }

  /** The last line about the state says that the take is finished. */
  ghost predicate EndsReady(lines: seq<string>) {
    exists i :: 0 <= i < |lines| && SaysReady(lines[i]) && forall j | i < j < |lines| :: !SaysState(lines[j])
  }

  lemma EndsReadyStill(front: seq<string>, last: string)
    requires EndsReady(front) && !SaysState(last)
    ensures EndsReady(front + [last])
  {
    hide SaysReady, SaysState;
    var i :| 0 <= i < |front| && SaysReady(front[i]) && forall j | i < j < |front| :: !SaysState(front[j]);
    assert SaysReady((front + [last])[i]);
  }

  lemma {:induction false} LastStateLine(lines: seq<string>)
    requires LastState(lines) == Ready
    ensures EndsReady(lines)
    decreases |lines|
  {
    hide SaysReady, SaysState, StateSaid;
    var front, last := lines[..|lines| - 1], lines[|lines| - 1];
    if SaysState(last) {
      ReadyLine(last);
    } else {
      hide EndsReady;
      LastStateLine(front);
      EndsReadyStill(front, last);
      assert front + [last] == lines;
    }
  }

  /** What no line says is blank: a header alone, and a source that says nothing. */
  lemma SilenceIsBlank(version: Uint32)
    ensures ParseLines(Begin(), [HeaderLine(version)])
            == Reading(Manifest(version, "", "", 0, 0, 0, "", "", Preparing, [], [], [], 0), true)
    ensures ParseLines(Begin(), [HeaderLine(version), "source"]).manifest.sources == [Source("", "", "", "", "", 0, 0, "")]
  {
    HeaderReads(version);
    hide ParseLine, HeaderLine;
    assert [HeaderLine(version)][..0] == [];
    assert ParseLines(Begin(), []) == Begin();
    assert [HeaderLine(version), "source"][..1] == [HeaderLine(version)];
    BareSource(Reading(Manifest(version, "", "", 0, 0, 0, "", "", Preparing, [], [], [], 0), true));
  }

  function HeaderLine(version: Uint32): string { "jamlink-take" + [TAB] + Digits(version) }

  lemma HeaderReads(version: Uint32)
    ensures ParseLine(Begin(), HeaderLine(version))
            == Reading(Manifest(version, "", "", 0, 0, 0, "", "", Preparing, [], [], [], 0), true)
  {
    NoReturnAtEnd(version);
    assert KeyOf(Header) == "jamlink-take";
    KnownLineAssigns(Begin(), HeaderLine(version), Header, Digits(version));
    ParseUndoesDigits(version);
    hide ParseLine, KeyOf, Digits, ParseNumber;
  }

  lemma NoReturnAtEnd(version: Uint32)
    ensures WithoutReturn(HeaderLine(version)) == HeaderLine(version)
  {
    DigitsArePlain(version);
    var text := HeaderLine(version);
    assert text[|text| - 1] == Digits(version)[|Digits(version)| - 1];
    hide Digits;
  }

  lemma {:induction false} DigitsArePlain(n: nat)
    ensures |Digits(n)| > 0 && Digits(n)[|Digits(n)| - 1] != RETURN
  {
  }

  lemma BareSource(r: Reading)
    requires r.manifest.sources == []
    ensures ParseLine(r, "source").manifest.sources == [Source("", "", "", "", "", 0, 0, "")]
  {
  }
}

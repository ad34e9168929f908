/** The take manifest's printer and parser as they run: text built up and taken apart line by line. */
module TakeManifest {
  import opened TextLines
  import opened TakeFormat

  method EscapeValue(value: string) returns (result: string)
    ensures result == Escaped(value)
  {
    result := "";
    for i := 0 to |value|
      invariant result == Escaped(value[..i])
    {
      var c := value[i];
      result := result + [if c == NEWLINE || c == RETURN || c == TAB then ' ' else c];
    }
    assert value[..|value|] == value;
  }

  method ReadNumber(value: string) returns (result: Uint64)
    ensures result == ParseNumber(value)
  {
    result := 0;
    for i := 0 to |value|
      invariant ParseNumber(value[i..], result) == ParseNumber(value)
    {
      if !IsDigit(value[i]) {
        return;
      }
      assert value[i..][1..] == value[i + 1..];
      result := (result * 10 + ValueOf(value[i])) % WORD64;
    }
  }

  lemma WritesAppend(entries: seq<Entry>, e: Entry)
    ensures Joined(Texts(entries + [e])) == Joined(Texts(entries)) + TextOf(e) + [NEWLINE]
  {
    assert Texts(entries + [e]) == Texts(entries) + [TextOf(e)];
    JoinedAppends(Texts(entries), [TextOf(e)]);
    JoinedOne(TextOf(e));
  }

  /** Text written so far, and the entries it stands for. */
  ghost predicate Written(text: string, entries: seq<Entry>) {
    text == Joined(Texts(entries))
  }

  method WriteEntry(text: string, ghost entries: seq<Entry>, e: Entry) returns (longer: string)
    requires Written(text, entries)
    ensures Written(longer, entries + [e])
  {
    WritesAppend(entries, e);
    longer := text + TextOf(e) + [NEWLINE];
  }

  method WriteText(text: string, ghost entries: seq<Entry>, field: Field, value: string) returns (longer: string)
    requires Written(text, entries)
    ensures Written(longer, entries + [Set(field, Escaped(value))])
  {
    var escaped := EscapeValue(value);
    longer := WriteEntry(text, entries, Set(field, escaped));
  }

  method WriteNumber(text: string, ghost entries: seq<Entry>, field: Field, value: Uint64) returns (longer: string)
    requires Written(text, entries)
    ensures Written(longer, entries + [Set(field, Digits(value))])
  {
    longer := WriteEntry(text, entries, Set(field, Digits(value)));
  }

  method WriteHeading(m: Manifest) returns (out: string)
    ensures Written(out, Heading(m))
  {
    hide Written, Digits, Escaped, StateName;
    ghost var e: seq<Entry> := [];
    out := "";
    assert Written(out, e) by { NothingWritten(); }
    out := WriteNumber(out, e, Header, m.manifestVersion);
    e := e + [Set(Header, Digits(m.manifestVersion))];
    out := WriteText(out, e, TakeId, m.takeId);
    e := e + [Set(TakeId, Escaped(m.takeId))];
    out := WriteText(out, e, SessionId, m.sessionId);
    e := e + [Set(SessionId, Escaped(m.sessionId))];
    out := WriteNumber(out, e, StartedAt, m.startedAt);
    e := e + [Set(StartedAt, Digits(m.startedAt))];
    out := WriteNumber(out, e, EndedAt, m.endedAt);
    e := e + [Set(EndedAt, Digits(m.endedAt))];
    out := WriteNumber(out, e, SampleRate, m.sampleRate);
    e := e + [Set(SampleRate, Digits(m.sampleRate))];
    out := WriteText(out, e, ApplicationVersion, m.applicationVersion);
    e := e + [Set(ApplicationVersion, Escaped(m.applicationVersion))];
    out := WriteText(out, e, MediaFormat, m.mediaFormat);
    e := e + [Set(MediaFormat, Escaped(m.mediaFormat))];
    out := WriteText(out, e, State, StateName(m.state));
    e := e + [Set(State, Escaped(StateName(m.state)))];
    out := WriteNumber(out, e, DroppedFrames, m.droppedFrames);
    e := e + [Set(DroppedFrames, Digits(m.droppedFrames))];
    assert e == Heading(m);
  }

  lemma NothingWritten()
    ensures Written("", [])
  {
    var none: seq<Entry> := [];
    assert Texts(none) == [];
  }

  method WriteSource(text: string, ghost entries: seq<Entry>, s: Source) returns (out: string)
    requires Written(text, entries)
    ensures Written(out, entries + SourceEntries(s))
  {
    hide Written, Digits, Escaped;
    ghost var e: seq<Entry> := [SourceStart];
    out := WriteEntry(text, entries, SourceStart);
    out := WriteText(out, entries + e, SourceId, s.sourceId);
    e := Longer(entries, e, Set(SourceId, Escaped(s.sourceId)));
    out := WriteText(out, entries + e, ParticipantId, s.participantId);
    e := Longer(entries, e, Set(ParticipantId, Escaped(s.participantId)));
    out := WriteText(out, entries + e, Role, s.role);
    e := Longer(entries, e, Set(Role, Escaped(s.role)));
    out := WriteText(out, entries + e, Origin, s.origin);
    e := Longer(entries, e, Set(Origin, Escaped(s.origin)));
    out := WriteText(out, entries + e, FileName, s.fileName);
    e := Longer(entries, e, Set(FileName, Escaped(s.fileName)));
    out := WriteNumber(out, entries + e, Frames, s.frames);
    e := Longer(entries, e, Set(Frames, Digits(s.frames)));
    out := WriteNumber(out, entries + e, KnownGapFrames, s.knownGapFrames);
    e := Longer(entries, e, Set(KnownGapFrames, Digits(s.knownGapFrames)));
    out := WriteText(out, entries + e, Sha256, s.sha256);
    e := Longer(entries, e, Set(Sha256, Escaped(s.sha256)));
    assert e == SourceEntries(s);
  }

  ghost function Longer(before: seq<Entry>, e: seq<Entry>, next: Entry): (longer: seq<Entry>)
    ensures longer == e + [next] && before + longer == before + e + [next]
  {
    e + [next]
  }

  method Serialise(m: Manifest) returns (out: string)
    ensures out == SerialiseTake(m)
  {
    hide Written, Heading, SourceEntries, Escaped;
    out := WriteHeading(m);
    ghost var h := Heading(m);
    assert m.excludedSources[..0] == [] && h + Repeated(ExcludedSource, []) == h;
    for k := 0 to |m.excludedSources|
      invariant Written(out, h + Repeated(ExcludedSource, m.excludedSources[..k]))
    {
      assert m.excludedSources[..k + 1][..k] == m.excludedSources[..k];
      var next := Set(ExcludedSource, Escaped(m.excludedSources[k]));
      out := WriteText(out, h + Repeated(ExcludedSource, m.excludedSources[..k]), ExcludedSource, m.excludedSources[k]);
      assert h + Repeated(ExcludedSource, m.excludedSources[..k]) + [next]
             == h + Repeated(ExcludedSource, m.excludedSources[..k + 1]);
    }
    assert m.excludedSources[..|m.excludedSources|] == m.excludedSources;
    h := h + Repeated(ExcludedSource, m.excludedSources);
    out := WriteRest(m, h, out);
    assert out == SerialiseTake(m) by { WrittenIs(out, Entries(m)); }
  }

  lemma WrittenIs(out: string, entries: seq<Entry>)
    requires Written(out, entries)
    ensures out == Joined(Texts(entries))
  {
  }

  method WriteRest(m: Manifest, ghost before: seq<Entry>, text: string) returns (out: string)
    requires Written(text, before)
    ensures Written(out, before + Repeated(Interruption, m.interruptions) + AllSources(m.sources))
  {
    hide Written, SourceEntries, Escaped;
    out := text;
    assert before + Repeated(Interruption, []) == before;
    for k := 0 to |m.interruptions|
      invariant Written(out, before + Repeated(Interruption, m.interruptions[..k]))
    {
      assert m.interruptions[..k + 1][..k] == m.interruptions[..k];
      out := WriteText(out, before + Repeated(Interruption, m.interruptions[..k]), Interruption, m.interruptions[k]);
      assert before + Repeated(Interruption, m.interruptions[..k]) + [Set(Interruption, Escaped(m.interruptions[k]))]
             == before + Repeated(Interruption, m.interruptions[..k + 1]);
    }
    assert m.interruptions[..|m.interruptions|] == m.interruptions;
    ghost var h := before + Repeated(Interruption, m.interruptions);
    assert h + AllSources([]) == h;
    for k := 0 to |m.sources|
      invariant Written(out, h + AllSources(m.sources[..k]))
    {
      assert m.sources[..k + 1][..k] == m.sources[..k];
      out := WriteSource(out, h + AllSources(m.sources[..k]), m.sources[k]);
      assert h + AllSources(m.sources[..k]) + SourceEntries(m.sources[k]) == h + AllSources(m.sources[..k + 1]);
    }
    assert m.sources[..|m.sources|] == m.sources;
  }

  lemma ParseStep(done: seq<string>, line: string)
    ensures ParseLines(Begin(), done + [line]) == ParseLine(ParseLines(Begin(), done), line)
  {
    assert (done + [line])[..|done|] == done;
    hide ParseLine;
  }

  lemma StartReading()
    ensures ParseLines(Begin(), []) == Begin() && SplitLines("") == []
  {
  }

  /** Reads line after line into a manifest. */
  method Parse(text: string) returns (result: Option<Manifest>)
    ensures result == ParseTake(text)
  {
    hide ParseLine, SplitLines, ParseLines, IndexOf;
    StartReading();
    var r := Begin();
    var rest := text;
    ghost var done: seq<string> := [];
    while rest != ""
      invariant SplitLines(text) == done + SplitLines(rest) && r == ParseLines(Begin(), done)
      decreases |rest|
    {
      var end := IndexOf(rest, NEWLINE);
      var line := rest[..end];
      SplitStep(rest);
      ParseStep(done, line);
      rest := if end == |rest| then "" else rest[end + 1..];
      r := ParseLine(r, line);
      done := done + [line];
    }
    assert done == SplitLines(text);
    result := if r.sawHeader then Some(r.manifest) else None;
  }
}

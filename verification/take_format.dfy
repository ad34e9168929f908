/** The take manifest's line format: what is written, how a tolerant reader takes it in, and that reading
    undoes writing. */
module TakeFormat {
  import opened TextLines

  datatype TakeState = Preparing | Recording | Stopping | Finalizing | Ready | RecoveredNeedsReview | FailedTake

  datatype Source = Source(
    sourceId: string,
    participantId: string,
    role: string,
    origin: string,
    fileName: string,
    frames: Uint64,
    knownGapFrames: Uint64,
    sha256: string)

  datatype Manifest = Manifest(
    manifestVersion: Uint32,
    takeId: string,
    sessionId: string,
    startedAt: Uint64,
    endedAt: Uint64,
    sampleRate: Uint32,
    applicationVersion: string,
    mediaFormat: string,
    state: TakeState,
    sources: seq<Source>,
    interruptions: seq<string>,
    excludedSources: seq<string>,
    droppedFrames: Uint64)

  function NewSource(): Source { Source("", "", "", "", "", 0, 0, "") }

  function NewManifest(): Manifest { Manifest(1, "", "", 0, 0, 0, "", "", Preparing, [], [], [], 0) }

  function StateName(state: TakeState): string {
    match state
    case Preparing => "Preparing"
    case Recording => "Recording"
    case Stopping => "Stopping"
    case Finalizing => "Finalizing"
    case Ready => "Ready"
    case RecoveredNeedsReview => "RecoveredNeedsReview"
    case FailedTake => "Failed"
  }

  const ALL_STATES: seq<TakeState> :=
    [Preparing, Recording, Stopping, Finalizing, Ready, RecoveredNeedsReview, FailedTake]

  function StateIn(name: string, states: seq<TakeState>): Option<TakeState> {
    if states == [] then None
    else if StateName(states[0]) == name then Some(states[0])
    else StateIn(name, states[1..])
  }

  function StateFromName(name: string): Option<TakeState> { StateIn(name, ALL_STATES) }

  // ---------------------------------------------------------------- fields

  datatype Field =
    | Header | TakeId | SessionId | StartedAt | EndedAt | SampleRate | ApplicationVersion | MediaFormat | State
    | DroppedFrames | ExcludedSource | Interruption
    | SourceId | ParticipantId | Role | Origin | FileName | Frames | KnownGapFrames | Sha256

  function KeyOf(field: Field): string {
    match field
    case Header => "jamlink-take"
    case TakeId => "takeId"
    case SessionId => "sessionId"
    case StartedAt => "startedAt"
    case EndedAt => "endedAt"
    case SampleRate => "sampleRate"
    case ApplicationVersion => "applicationVersion"
    case MediaFormat => "mediaFormat"
    case State => "state"
    case DroppedFrames => "droppedFrames"
    case ExcludedSource => "excluded_source"
    case Interruption => "interruption"
    case SourceId => "  sourceId"
    case ParticipantId => "  participantId"
    case Role => "  role"
    case Origin => "  origin"
    case FileName => "  fileName"
    case Frames => "  frames"
    case KnownGapFrames => "  knownGapFrames"
    case Sha256 => "  sha256"
  }

  /** Keys in the order they are compared. */
  const ALL_FIELDS: seq<Field> :=
    [Header, TakeId, SessionId, StartedAt, EndedAt, SampleRate, ApplicationVersion, MediaFormat, State, DroppedFrames,
     ExcludedSource, Interruption, SourceId, ParticipantId, Role, Origin, FileName, Frames, KnownGapFrames, Sha256]

  function FieldIn(key: string, fields: seq<Field>): Option<Field> {
    if fields == [] then None
    else if key == KeyOf(fields[0]) then Some(fields[0])
    else FieldIn(key, fields[1..])
  }

  // ---------------------------------------------------------------- writing

  function EscapedChar(c: char): char {
    if c == NEWLINE || c == RETURN || c == TAB then ' ' else c
  }

  /** Characters that would break the line format become spaces. */
  function Escaped(text: string): string {
    seq(|text|, (i: nat) requires i < |text| => EscapedChar(text[i]))
  }

  /** One line: a key and its value, or the start of a source. */
  datatype Entry = Set(field: Field, value: string) | SourceStart

  function TextOf(e: Entry): string {
    match e
    case Set(field, value) => KeyOf(field) + [TAB] + value
    case SourceStart => "source"
  }

  function Texts(entries: seq<Entry>): seq<string> {
    seq(|entries|, (i: nat) requires i < |entries| => TextOf(entries[i]))
  }

  function Heading(m: Manifest): seq<Entry> {
    [Set(Header, Digits(m.manifestVersion))] + [Set(TakeId, Escaped(m.takeId))]
    + [Set(SessionId, Escaped(m.sessionId))] + [Set(StartedAt, Digits(m.startedAt))]
    + [Set(EndedAt, Digits(m.endedAt))] + [Set(SampleRate, Digits(m.sampleRate))]
    + [Set(ApplicationVersion, Escaped(m.applicationVersion))] + [Set(MediaFormat, Escaped(m.mediaFormat))]
    + [Set(State, Escaped(StateName(m.state)))] + [Set(DroppedFrames, Digits(m.droppedFrames))]
  }

  function Repeated(field: Field, values: seq<string>): seq<Entry> {
    if values == [] then []
    else Repeated(field, values[..|values| - 1]) + [Set(field, Escaped(values[|values| - 1]))]
  }

  function SourceEntries(s: Source): seq<Entry> {
    [SourceStart] + [Set(SourceId, Escaped(s.sourceId))] + [Set(ParticipantId, Escaped(s.participantId))]
    + [Set(Role, Escaped(s.role))] + [Set(Origin, Escaped(s.origin))] + [Set(FileName, Escaped(s.fileName))]
    + [Set(Frames, Digits(s.frames))] + [Set(KnownGapFrames, Digits(s.knownGapFrames))]
    + [Set(Sha256, Escaped(s.sha256))]
  }

  function AllSources(sources: seq<Source>): seq<Entry> {
    if sources == [] then [] else AllSources(sources[..|sources| - 1]) + SourceEntries(sources[|sources| - 1])
  }

  function Entries(m: Manifest): seq<Entry> {
    Heading(m) + Repeated(ExcludedSource, m.excludedSources) + Repeated(Interruption, m.interruptions)
    + AllSources(m.sources)
  }

  function SerialiseTake(m: Manifest): string { Joined(Texts(Entries(m))) }

  // ---------------------------------------------------------------- reading

  datatype Reading = Reading(manifest: Manifest, sawHeader: bool)

  function Begin(): Reading { Reading(NewManifest(), false) }

  function InLastSource(r: Reading, s: Source): Reading
    requires r.manifest.sources != []
  {
    r.(manifest := r.manifest.(sources := r.manifest.sources[|r.manifest.sources| - 1 := s]))
  }

  function Assign(r: Reading, field: Field, value: string): Reading {
    var m := r.manifest;
    match field
    case Header => Reading(m.(manifestVersion := ParseNumber(value) % WORD32), true)
    case TakeId => r.(manifest := m.(takeId := value))
    case SessionId => r.(manifest := m.(sessionId := value))
    case StartedAt => r.(manifest := m.(startedAt := ParseNumber(value)))
    case EndedAt => r.(manifest := m.(endedAt := ParseNumber(value)))
    case SampleRate => r.(manifest := m.(sampleRate := ParseNumber(value) % WORD32))
    case ApplicationVersion => r.(manifest := m.(applicationVersion := value))
    case MediaFormat => r.(manifest := m.(mediaFormat := value))
    case State =>
      var known := StateFromName(value);
      r.(manifest := m.(state := if known.Some? then known.value else RecoveredNeedsReview))
    case DroppedFrames => r.(manifest := m.(droppedFrames := ParseNumber(value)))
    case ExcludedSource => r.(manifest := m.(excludedSources := m.excludedSources + [value]))
    case Interruption => r.(manifest := m.(interruptions := m.interruptions + [value]))
    case _ =>
      if m.sources == [] then r
      else InLastSource(r, AssignSource(m.sources[|m.sources| - 1], field, value))
  }

  function AssignSource(s: Source, field: Field, value: string): Source {
    match field
    case SourceId => s.(sourceId := value)
    case ParticipantId => s.(participantId := value)
    case Role => s.(role := value)
    case Origin => s.(origin := value)
    case FileName => s.(fileName := value)
    case Frames => s.(frames := ParseNumber(value))
    case KnownGapFrames => s.(knownGapFrames := ParseNumber(value))
    case Sha256 => s.(sha256 := value)
    case _ => s
  }

  function StartSource(r: Reading): Reading {
    r.(manifest := r.manifest.(sources := r.manifest.sources + [NewSource()]))
  }

  function WithoutReturn(line: string): string {
    if line != "" && line[|line| - 1] == RETURN then line[..|line| - 1] else line
  }

  /** Lines without a tab and keys that are not known are passed over. */
  function ParseLine(r: Reading, raw: string): Reading {
    var line := WithoutReturn(raw);
    if line == "source" then StartSource(r)
    else
      var tab := IndexOf(line, TAB);
      if tab == |line| then r
      else
        var field := FieldIn(line[..tab], ALL_FIELDS);
        if field.None? then r else Assign(r, field.value, line[tab + 1..])
  }

  function ParseLines(r: Reading, lines: seq<string>): Reading {
    if lines == [] then r else ParseLine(ParseLines(r, lines[..|lines| - 1]), lines[|lines| - 1])
  }

  function ParseTake(text: string): Option<Manifest> {
    var r := ParseLines(Begin(), SplitLines(text));
    if r.sawHeader then Some(r.manifest) else None
  }

  // ---------------------------------------------------------------- keys and names

  /** A key's length and third character tell it from all others. */
  function Mark(key: string): (nat, char)
    requires |key| > 2
  {
    (|key|, key[2])
  }

  lemma KeyMarks(field: Field)
    ensures |KeyOf(field)| > 2
    ensures Mark(KeyOf(field)) ==
            match field
            case Header => (12, 'm')
            case TakeId => (6, 'k')
            case SessionId => (9, 's')
            case StartedAt => (9, 'a')
            case EndedAt => (7, 'd')
            case SampleRate => (10, 'm')
            case ApplicationVersion => (18, 'p')
            case MediaFormat => (11, 'd')
            case State => (5, 'a')
            case DroppedFrames => (13, 'o')
            case ExcludedSource => (15, 'c')
            case Interruption => (12, 't')
            case SourceId => (10, 's')
            case ParticipantId => (15, 'p')
            case Role => (6, 'r')
            case Origin => (8, 'o')
            case FileName => (10, 'f')
            case Frames => (8, 'f')
            case KnownGapFrames => (16, 'k')
            case Sha256 => (8, 's')
  {
  }

  lemma KeysDiffer(a: Field, b: Field)
    requires KeyOf(a) == KeyOf(b)
    ensures a == b
  {
    KeyMarks(a);
    KeyMarks(b);
    hide KeyOf;
  }

  lemma {:induction false} FieldInFinds(field: Field, fields: seq<Field>)
    requires field in fields
    ensures FieldIn(KeyOf(field), fields) == Some(field)
  {
    hide KeyOf;
    if KeyOf(field) == KeyOf(fields[0]) {
      KeysDiffer(field, fields[0]);
    } else {
      FieldInFinds(field, fields[1..]);
    }
  }

  lemma TakeKeyIsPlain(field: Field)
    requires field.Header? || field.TakeId? || field.SessionId? || field.StartedAt? || field.EndedAt? || field.SampleRate?
    ensures Plain(KeyOf(field))
  {
  }

  lemma FormatKeyIsPlain(field: Field)
    requires field.ApplicationVersion? || field.MediaFormat? || field.State? || field.DroppedFrames?
             || field.ExcludedSource? || field.Interruption?
    ensures Plain(KeyOf(field))
  {
  }

  lemma SourceKeyIsPlain(field: Field)
    requires field.SourceId? || field.ParticipantId? || field.Role? || field.Origin? || field.FileName?
             || field.Frames? || field.KnownGapFrames? || field.Sha256?
    ensures Plain(KeyOf(field))
  {
  }

  lemma KeyIsPlain(field: Field)
    ensures Plain(KeyOf(field))
  {
    hide KeyOf, Plain;
    if field.SourceId? || field.ParticipantId? || field.Role? || field.Origin? || field.FileName?
       || field.Frames? || field.KnownGapFrames? || field.Sha256? {
      SourceKeyIsPlain(field);
    } else if field.Header? || field.TakeId? || field.SessionId? || field.StartedAt? || field.EndedAt? || field.SampleRate? {
      TakeKeyIsPlain(field);
    } else {
      FormatKeyIsPlain(field);
    }
  }

  lemma NameMarks(state: TakeState)
    ensures |StateName(state)| > 2
    ensures Mark(StateName(state)) ==
            match state
            case Preparing => (9, 'e')
            case Recording => (9, 'c')
            case Stopping => (8, 'o')
            case Finalizing => (10, 'n')
            case Ready => (5, 'a')
            case RecoveredNeedsReview => (20, 'c')
            case FailedTake => (6, 'i')
  {
  }

  lemma {:induction false} StateInFinds(state: TakeState, states: seq<TakeState>)
    requires state in states
    ensures StateIn(StateName(state), states) == Some(state)
  {
    NameMarks(state);
    NameMarks(states[0]);
    hide StateName;
    if StateName(state) != StateName(states[0]) {
      StateInFinds(state, states[1..]);
    }
  }

  lemma StateRoundTrip(state: TakeState)
    ensures StateFromName(StateName(state)) == Some(state)
  {
    StateInFinds(state, ALL_STATES);
  }
}

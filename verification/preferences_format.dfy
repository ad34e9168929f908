/** The preferences file: one line for each setting, required ones first and in order, optional ones after
    them in any order. */
module PreferencesFormat {
  import opened TextLines

  /** Every setting the file holds. */
  datatype Key =
    | InstrumentDevice | InstrumentPrimary | InstrumentSecondary | VoiceDevice | VoicePrimary | VoiceSecondary
    | OutputDevice | OutputPrimary | OutputSecondary | SampleRate | BufferFrames | InstrumentGain | VoiceGain
    | InstrumentEnabled | VoiceEnabled | WindowX | WindowY | WindowWidth | WindowHeight | WindowHasPosition
    | RemoteInstrumentGain | RemoteVoiceGain | TunerMutes | RecordDirectory | RecordLocalInstrument
    | RecordLocalVoice | RecordRemoteInstrument | RecordRemoteVoice | NetworkPort | NetworkMapping | LatencyMode
    | ProfileId | ProfileHandle | ProfileDisplayName | ProfileAvatar | ProfileCustomAvatar | ProfileInstrument
    | ProfileGenres | ProfileBio | ProfileRegion | ShareInstrument | ShareGenres | ShareBio | ShareRegion

  /** Required lines, in the order they are written and read. */
  const REQUIRED: seq<Key> :=
    [InstrumentDevice, InstrumentPrimary, InstrumentSecondary, VoiceDevice, VoicePrimary, VoiceSecondary,
     OutputDevice, OutputPrimary, OutputSecondary, SampleRate, BufferFrames, InstrumentGain, VoiceGain,
     InstrumentEnabled, VoiceEnabled, WindowX, WindowY, WindowWidth, WindowHeight, WindowHasPosition]

  const SESSION_KEYS: seq<Key> :=
    [RemoteInstrumentGain, RemoteVoiceGain, TunerMutes, RecordDirectory, RecordLocalInstrument, RecordLocalVoice,
     RecordRemoteInstrument, RecordRemoteVoice, NetworkPort, NetworkMapping, LatencyMode]

  const PROFILE_KEYS: seq<Key> :=
    [ProfileId, ProfileHandle, ProfileDisplayName, ProfileAvatar, ProfileCustomAvatar, ProfileInstrument,
     ProfileGenres, ProfileBio, ProfileRegion, ShareInstrument, ShareGenres, ShareBio, ShareRegion]

  /** Lines that earlier builds did not write. */
  const OPTIONAL: seq<Key> := SESSION_KEYS + PROFILE_KEYS

  datatype Kind = TextKind | CountKind | OffsetKind | FlagKind | GainKind

  /** Gains are counted in units of the smallest positive single-precision number. */
  datatype Value = Text(text: string) | Number(number: int)

  const GAIN_ONE: int := 0x20000000000000000000000000000000000000
  const GAIN_072: int := 0x170a3d80000000000000000000000000000000
  const GAIN_055: int := 0x119999a0000000000000000000000000000000

  type Preferences = map<Key, Value>

  datatype Section =
    | InstrumentSection | VoiceSection | OutputSection | AudioSection | MonitorSection
    | WindowSection | RoomSection | TunerSection | RecordSection | NetworkSection | ProfileSection

  function SectionOf(k: Key): Section {
    match k
    case InstrumentDevice | InstrumentPrimary | InstrumentSecondary => InstrumentSection
    case VoiceDevice | VoicePrimary | VoiceSecondary => VoiceSection
    case OutputDevice | OutputPrimary | OutputSecondary => OutputSection
    case SampleRate | BufferFrames => AudioSection
    case InstrumentGain | VoiceGain | InstrumentEnabled | VoiceEnabled => MonitorSection
    case WindowX | WindowY | WindowWidth | WindowHeight | WindowHasPosition => WindowSection
    case RemoteInstrumentGain | RemoteVoiceGain => RoomSection
    case TunerMutes => TunerSection
    case RecordDirectory | RecordLocalInstrument | RecordLocalVoice | RecordRemoteInstrument
       | RecordRemoteVoice => RecordSection
    case NetworkPort | NetworkMapping | LatencyMode => NetworkSection
    case ProfileId | ProfileHandle | ProfileDisplayName | ProfileAvatar | ProfileCustomAvatar
       | ProfileInstrument | ProfileGenres | ProfileBio | ProfileRegion | ShareInstrument | ShareGenres
       | ShareBio | ShareRegion => ProfileSection
  }

  /** What the names of a section start with. */
  function SectionName(section: Section): string {
    match section
    case InstrumentSection => "instrument."
    case VoiceSection => "voice."
    case OutputSection => "output."
    case AudioSection => "audio."
    case MonitorSection => "monitor."
    case WindowSection => "window."
    case RoomSection => "room.remote."
    case TunerSection => "tuner."
    case RecordSection => "record."
    case NetworkSection => "network."
    case ProfileSection => "profile."
  }

  /** A setting's name within its section. */
  function SettingName(k: Key): string {
    match k
    case InstrumentDevice | VoiceDevice | OutputDevice => "device"
    case InstrumentPrimary | VoicePrimary | OutputPrimary => "channel.primary"
    case InstrumentSecondary | VoiceSecondary | OutputSecondary => "channel.secondary"
    case SampleRate => "sample_rate"
    case BufferFrames => "buffer_frames"
    case InstrumentGain | RemoteInstrumentGain => "instrument.gain"
    case VoiceGain | RemoteVoiceGain => "voice.gain"
    case InstrumentEnabled => "instrument.enabled"
    case VoiceEnabled => "voice.enabled"
    case WindowX => "x"
    case WindowY => "y"
    case WindowWidth => "width"
    case WindowHeight => "height"
    case WindowHasPosition => "has_position"
    case TunerMutes => "mutes_instrument"
    case RecordDirectory => "directory"
    case RecordLocalInstrument => "local_instrument"
    case RecordLocalVoice => "local_voice"
    case RecordRemoteInstrument => "remote_instrument"
    case RecordRemoteVoice => "remote_voice"
    case NetworkPort => "port"
    case NetworkMapping => "automatic_mapping"
    case LatencyMode => "latency_mode"
    case ProfileId => "id"
    case ProfileHandle => "handle"
    case ProfileDisplayName => "display_name"
    case ProfileAvatar => "avatar_id"
    case ProfileCustomAvatar => "custom_avatar"
    case ProfileInstrument => "primary_instrument"
    case ProfileGenres => "genres"
    case ProfileBio => "bio"
    case ProfileRegion => "region"
    case ShareInstrument => "share_instrument"
    case ShareGenres => "share_genres"
    case ShareBio => "share_bio"
    case ShareRegion => "share_region"
  }

  function NameOf(k: Key): string { SectionName(SectionOf(k)) + SettingName(k) }

  function KindOf(k: Key): Kind {
    match k
    case InstrumentDevice | InstrumentPrimary | InstrumentSecondary | VoiceDevice | VoicePrimary | VoiceSecondary
       | OutputDevice | OutputPrimary | OutputSecondary | RecordDirectory | ProfileId | ProfileHandle
       | ProfileDisplayName | ProfileAvatar | ProfileCustomAvatar | ProfileInstrument | ProfileGenres | ProfileBio
       | ProfileRegion => TextKind
    case SampleRate | BufferFrames | WindowWidth | WindowHeight | NetworkPort | LatencyMode => CountKind
    case WindowX | WindowY => OffsetKind
    case InstrumentGain | VoiceGain | RemoteInstrumentGain | RemoteVoiceGain => GainKind
    case InstrumentEnabled | VoiceEnabled | WindowHasPosition | TunerMutes | RecordLocalInstrument | RecordLocalVoice
       | RecordRemoteInstrument | RecordRemoteVoice | NetworkMapping | ShareInstrument | ShareGenres | ShareBio
       | ShareRegion => FlagKind
  }

  function DefaultOf(k: Key): Value {
    match k
    case SampleRate => Number(48_000)
    case InstrumentGain => Number(GAIN_072)
    case VoiceGain => Number(GAIN_055)
    case WindowWidth => Number(560)
    case WindowHeight => Number(780)
    case RemoteInstrumentGain | RemoteVoiceGain => Number(GAIN_ONE)
    case TunerMutes | RecordLocalInstrument | RecordLocalVoice | RecordRemoteInstrument | RecordRemoteVoice
       | NetworkMapping | LatencyMode | ShareInstrument | ShareGenres => Number(1)
    case ProfileDisplayName => Text("Musician")
    case ProfileAvatar => Text("avatar:guitar-electric")
    case ProfileInstrument => Text("Guitar")
    case _ => if KindOf(k) == TextKind then Text("") else Number(0)
  }

  const KEYS: seq<Key> := REQUIRED + OPTIONAL

  function Defaults(): Preferences {
    map k | k in KEYS :: DefaultOf(k)
  }

  /** Values that the settings' types can hold: gains are single-precision numbers. */
  ghost predicate WellTyped(p: Preferences) {
    forall k: Key :: k in p && HasType(k, p[k])
  }

  predicate HasType(k: Key, v: Value) {
    && (KindOf(k) == TextKind <==> v.Text?)
    && (KindOf(k) == GainKind && v.number >= 0 ==> IsFloat(v.number))
  }

  /** So many of the smallest positive single-precision number are one too: 24 significant bits suffice. */
  predicate IsFloat(n: nat) {
    n < 0x100_0000 || (n % 2 == 0 && IsFloat(n / 2))
  }

  predicate ValidText(text: string, maximum: nat) {
    |text| <= maximum && '\0' !in text && RETURN !in text
  }

  /** The settings a value may have. */
  predicate Permits(k: Key, v: Value) {
    match v
    case Text(text) =>
      (match k
       case ProfileId | ProfileRegion => ValidText(text, 64)
       case ProfileHandle => ValidText(text, 32)
       case ProfileDisplayName | ProfileAvatar => text != "" && ValidText(text, 64)
       case ProfileCustomAvatar => ValidText(text, 1_024)
       case ProfileInstrument => text != "" && ValidText(text, 32)
       case ProfileGenres => ValidText(text, 128)
       case ProfileBio => ValidText(text, 280)
       case _ => true)
    case Number(n) =>
      (match KindOf(k)
       case FlagKind => n == 0 || n == 1
       case GainKind => 0 <= n <= 2 * GAIN_ONE
       case OffsetKind => -0x8000_0000 <= n < 0x8000_0000
       case CountKind =>
         (match k
          case SampleRate => 8_000 <= n <= 384_000
          case BufferFrames => 0 <= n <= 8_192
          case WindowWidth => 532 <= n <= 16_384
          case WindowHeight => 480 <= n <= 16_384
          case NetworkPort => 0 <= n <= 65_535
          case LatencyMode => 0 <= n <= 2
          case _ => true)
       case TextKind => true)
  }

  predicate Permitted(p: Preferences) {
    forall k | k in p :: Permits(k, p[k])
  }

  // ---------------------------------------------------------------- scanning a line

  predicate IsSpace(c: char) {
    c == ' ' || '\t' <= c <= '\r'
  }

  /** Text without white space or control characters. */
  ghost predicate Solid(text: string) {
    text != "" && forall i | 0 <= i < |text| :: text[i] > ' '
  }

  function SkipSpaces(text: string): string {
    if text != "" && IsSpace(text[0]) then SkipSpaces(text[1..]) else text
  }

  /** Up to the first white space. */
  function WordLength(text: string): (n: nat)
    ensures n <= |text|
  {
    if text == "" || IsSpace(text[0]) then 0 else 1 + WordLength(text[1..])
  }

  datatype Scan<T> = Missing | Found(value: T, rest: string)

  /** The next word after white space. */
  function Word(text: string): Scan<string> {
    var t := SkipSpaces(text);
    var n := WordLength(t);
    if n == 0 then Missing else Found(t[..n], t[n..])
  }

  const QUOTE: char := '\"'
  const ESCAPE: char := '\\'

  /** Quotes and backslashes get a backslash. */
  function EscapedText(text: string): string {
    if text == "" then ""
    else (if text[0] == QUOTE || text[0] == ESCAPE then [ESCAPE, text[0]] else [text[0]]) + EscapedText(text[1..])
  }

  function Quoted(text: string): string { [QUOTE] + EscapedText(text) + [QUOTE] }

  /** Up to the closing quote; a backslash takes the next character as it is. */
  function Unquote(text: string): Scan<string> {
    if text == "" then Missing
    else if text[0] == QUOTE then Found("", text[1..])
    else if text[0] == ESCAPE then
      if |text| < 2 then Missing
      else
        (match Unquote(text[2..])
         case Missing => Missing
         case Found(value, rest) => Found([text[1]] + value, rest))
    else
      match Unquote(text[1..])
      case Missing => Missing
      case Found(value, rest) => Found([text[0]] + value, rest)
  }

  /** A quoted text, or a bare word. */
  function ReadQuoted(text: string): Scan<string> {
    var t := SkipSpaces(text);
    if t != "" && t[0] == QUOTE then Unquote(t[1..]) else Word(t)
  }

  function DigitsLength(text: string): (n: nat)
    ensures n <= |text| && forall i | 0 <= i < n :: IsDigit(text[i])
  {
    if text == "" || !IsDigit(text[0]) then 0 else 1 + DigitsLength(text[1..])
  }

  function NumberOf(digits: string): nat
    requires forall i | 0 <= i < |digits| :: IsDigit(digits[i])
  {
    if digits == "" then 0 else NumberOf(digits[..|digits| - 1]) * 10 + ValueOf(digits[|digits| - 1])
  }

  /** An optional sign and decimal digits after white space: the sign, the magnitude and the rest. */
  function ReadMagnitude(text: string): Scan<(bool, nat)> {
    var t := SkipSpaces(text);
    var negative := t != "" && t[0] == '-';
    var body := if t != "" && (t[0] == '-' || t[0] == '+') then t[1..] else t;
    var n := DigitsLength(body);
    if n == 0 then Missing else Found((negative, NumberOf(body[..n])), body[n..])
  }

  /** A signed 32-bit number. */
  function ReadSigned(text: string): Scan<int> {
    match ReadMagnitude(text)
    case Missing => Missing
    case Found(m, rest) =>
      var value: int := if m.0 then 0 - m.1 else m.1;
      if -0x8000_0000 <= value < 0x8000_0000 then Found(value, rest) else Missing
  }

  /** An unsigned 32-bit number; a minus sign counts down from 2^32. */
  function ReadUnsigned(text: string): Scan<int> {
    match ReadMagnitude(text)
    case Missing => Missing
    case Found(m, rest) =>
      if m.1 >= WORD32 then Missing
      else Found(if m.0 && m.1 > 0 then WORD32 - m.1 else m.1, rest)
  }

  function Signed(n: int): string {
    if n < 0 then ['-'] + Digits(0 - n) else Digits(n)
  }

  /** How gains are written and read, which the standard library decides; a reading outside the permitted
      gains stands for every value that is not one. */
  datatype GainText = GainText(show: nat -> string, read: string -> Scan<int>) {
    /** Enough digits are written for every gain that is a single-precision number to read back. */
    ghost predicate Exact() {
      forall n: nat | n <= 2 * GAIN_ONE && IsFloat(n) :: Solid(show(n)) && read(show(n)) == Found(n, "")
    }
  }

  function ReadNumber(g: GainText, kind: Kind, text: string): Scan<int> {
    match kind
    case CountKind => ReadUnsigned(text)
    case GainKind => g.read(SkipSpaces(text))
    case _ => ReadSigned(text)
  }

  // ---------------------------------------------------------------- writing

  const FILE_HEADER: string := "JAMLINK_PREFERENCES 1"

  function Shown(g: GainText, k: Key, v: Value): string {
    match v
    case Text(text) => Quoted(text)
    case Number(n) => if KindOf(k) == GainKind && n >= 0 then g.show(n) else Signed(n)
  }

  function LineOf(g: GainText, k: Key, v: Value): string {
    NameOf(k) + [' '] + Shown(g, k, v)
  }

  /** The lines of some settings, in order. */
  function LinesOf(g: GainText, p: Preferences, keys: seq<Key>): seq<string>
    requires forall k | k in keys :: k in p
  {
    seq(|keys|, (i: nat) requires i < |keys| => LineOf(g, keys[i], p[keys[i]]))
  }

  /** The required lines followed by some optional ones. */
  function TextWith(g: GainText, p: Preferences, order: seq<Key>): string
    requires (forall k | k in REQUIRED :: k in p) && (forall k | k in order :: k in p)
  {
    Joined([FILE_HEADER] + LinesOf(g, p, REQUIRED) + LinesOf(g, p, order))
  }

  function Write(g: GainText, p: Preferences): string
    requires forall k | k in KEYS :: k in p
  {
    assert forall k | k in REQUIRED || k in OPTIONAL :: k in KEYS;
    TextWith(g, p, OPTIONAL)
  }

  // ---------------------------------------------------------------- reading

  /** A required line: exactly the expected name, one value, and nothing else. */
  function ReadRequired(g: GainText, k: Key, line: string): Option<Value> {
    match Word(line)
    case Missing => None
    case Found(name, rest) =>
      if KindOf(k) == TextKind then
        (match ReadQuoted(rest)
         case Missing => None
         case Found(text, after) => if name == NameOf(k) && SkipSpaces(after) == "" then Some(Text(text)) else None)
      else
        match ReadNumber(g, KindOf(k), rest)
        case Missing => None
        case Found(n, after) => if name == NameOf(k) && SkipSpaces(after) == "" then Some(Number(n)) else None
  }

  function ReadAllRequired(g: GainText, p: Preferences, keys: seq<Key>, lines: seq<string>): Option<Preferences>
    decreases |keys|
  {
    if keys == [] then Some(p)
    else if lines == [] then None
    else
      match ReadRequired(g, keys[0], lines[0])
      case None => None
      case Some(v) => ReadAllRequired(g, p[keys[0] := v], keys[1..], lines[1..])
  }

  function KeyNamed(name: string, keys: seq<Key>): Option<Key> {
    if keys == [] then None
    else if name == NameOf(keys[0]) then Some(keys[0])
    else KeyNamed(name, keys[1..])
  }

  /** An optional line: empty, or a known name with its value; only texts must end there. */
  function ReadOptional(g: GainText, p: Preferences, line: string): Option<Preferences> {
    if line == "" then Some(p)
    else
      match Word(line)
      case Missing => None
      case Found(name, rest) =>
        match KeyNamed(name, OPTIONAL)
        case None => None
        case Some(k) =>
          if KindOf(k) == TextKind then
            (match ReadQuoted(rest)
             case Missing => None
             case Found(text, after) => if SkipSpaces(after) == "" then Some(p[k := Text(text)]) else None)
          else
            match ReadNumber(g, KindOf(k), rest)
            case Missing => None
            case Found(n, _) => Some(p[k := Number(n)])
  }

  function ReadAllOptional(g: GainText, p: Preferences, lines: seq<string>): Option<Preferences>
    decreases |lines|
  {
    if lines == [] then Some(p)
    else
      match ReadOptional(g, p, lines[0])
      case None => None
      case Some(q) => ReadAllOptional(g, q, lines[1..])
  }

  /** Flags among the required settings are checked before the optional lines are read. */
  predicate FlagsFine(p: Preferences, keys: seq<Key>) {
    forall k | k in keys && k in p && KindOf(k) == FlagKind :: p[k] == Number(0) || p[k] == Number(1)
  }

  function ParseLines(g: GainText, lines: seq<string>): Option<Preferences> {
    if lines == [] || lines[0] != FILE_HEADER then None
    else
      match ReadAllRequired(g, Defaults(), REQUIRED, lines[1..])
      case None => None
      case Some(p) =>
        if !FlagsFine(p, REQUIRED) || |lines| - 1 < |REQUIRED| then None
        else
          match ReadAllOptional(g, p, lines[1 + |REQUIRED|..])
          case None => None
          case Some(q) => if Permitted(q) then Some(q) else None
  }

  function Parse(g: GainText, text: string): Option<Preferences> {
    ParseLines(g, SplitLines(text))
  }

  // ---------------------------------------------------------------- names

  /** The length and the last character of a setting's name tell it from the others of its section. */
  function Mark(name: string): int
    requires name != ""
  {
    |name| * 1_000 + name[|name| - 1] as int
  }

  function MarkOf(k: Key): int {
    match k
    case InstrumentDevice | VoiceDevice | OutputDevice | ProfileHandle => 6_101
    case InstrumentPrimary | VoicePrimary | OutputPrimary => 15_121
    case InstrumentSecondary | VoiceSecondary | OutputSecondary => 17_121
    case SampleRate | RecordLocalVoice => 11_101
    case BufferFrames => 13_115
    case InstrumentGain | RemoteInstrumentGain => 15_110
    case VoiceGain | RemoteVoiceGain => 10_110
    case InstrumentEnabled => 18_100
    case VoiceEnabled => 13_100
    case WindowX => 1_120
    case WindowY => 1_121
    case WindowWidth => 5_104
    case WindowHeight => 6_116
    case WindowHasPosition | ShareRegion => 12_110
    case TunerMutes | RecordLocalInstrument | ShareInstrument => 16_116
    case RecordDirectory => 9_121
    case RecordRemoteInstrument => 17_116
    case RecordRemoteVoice | LatencyMode | ProfileDisplayName => 12_101
    case NetworkPort => 4_116
    case NetworkMapping => 17_103
    case ProfileId => 2_100
    case ProfileAvatar => 9_100
    case ProfileCustomAvatar => 13_114
    case ProfileInstrument => 18_116
    case ProfileGenres => 6_115
    case ProfileBio => 3_111
    case ProfileRegion => 6_110
    case ShareGenres => 12_115
    case ShareBio => 9_111
  }

  lemma SectionNamesAreSolid(section: Section)
    ensures Solid(SectionName(section))
  {
  }

  /** A setting's name is one word, with its mark. */
  ghost predicate Named(k: Key) {
    Solid(SettingName(k)) && Mark(SettingName(k)) == MarkOf(k)
  }

  lemma InputSettingsAreNamed(k: Key)
    requires SectionOf(k) in {InstrumentSection, VoiceSection}
    ensures Named(k)
  {
  }

  lemma OutputSettingsAreNamed(k: Key)
    requires SectionOf(k) in {OutputSection, AudioSection}
    ensures Named(k)
  {
  }

  lemma GainSettingsAreNamed(k: Key)
    requires SectionOf(k) in {MonitorSection, RoomSection}
    ensures Named(k)
  {
  }

  lemma RecordSettingsAreNamed(k: Key)
    requires SectionOf(k) == RecordSection
    ensures Named(k)
  {
  }

  lemma WindowSettingsAreNamed(k: Key)
    requires SectionOf(k) == WindowSection
    ensures Named(k)
  {
  }

  lemma NetworkSettingsAreNamed(k: Key)
    requires SectionOf(k) in {NetworkSection, TunerSection}
    ensures Named(k)
  {
  }

  lemma ProfileSettingsAreNamed(k: Key)
    requires SectionOf(k) == ProfileSection && KindOf(k) == TextKind
    ensures Named(k)
  {
  }

  lemma SharingSettingsAreNamed(k: Key)
    requires SectionOf(k) == ProfileSection && KindOf(k) == FlagKind
    ensures Named(k)
  {
  }

  lemma SettingIsNamed(k: Key)
    ensures Named(k)
  {
    hide Named;
    match SectionOf(k)
    case MonitorSection | RoomSection => GainSettingsAreNamed(k);
    case RecordSection => RecordSettingsAreNamed(k);
    case WindowSection => WindowSettingsAreNamed(k);
    case NetworkSection | TunerSection => NetworkSettingsAreNamed(k);
    case ProfileSection => if KindOf(k) == TextKind { ProfileSettingsAreNamed(k); } else { SharingSettingsAreNamed(k); }
    case InstrumentSection | VoiceSection => InputSettingsAreNamed(k);
    case _ => OutputSettingsAreNamed(k);
  }

  lemma NameIsSolid(k: Key)
    ensures Solid(NameOf(k))
  {
    hide SectionName, SettingName, MarkOf;
    SectionNamesAreSolid(SectionOf(k));
    SettingIsNamed(k);
  }

  lemma ProfileMarksDiffer(a: Key, b: Key)
    requires SectionOf(a) == SectionOf(b) == ProfileSection && MarkOf(a) == MarkOf(b)
    ensures a == b
  {
  }

  lemma OtherMarksDiffer(a: Key, b: Key)
    requires SectionOf(a) == SectionOf(b) != ProfileSection && MarkOf(a) == MarkOf(b)
    ensures a == b
  {
  }

  /** The first two characters tell a section. */
  lemma SectionsDiffer(a: Section, b: Section)
    requires SectionName(a)[..2] == SectionName(b)[..2]
    ensures a == b
  {
    assert SectionName(a)[0] == SectionName(a)[..2][0] && SectionName(a)[1] == SectionName(a)[..2][1];
    assert SectionName(b)[0] == SectionName(b)[..2][0] && SectionName(b)[1] == SectionName(b)[..2][1];
  }

  lemma SectionNamesAreLong(section: Section)
    ensures |SectionName(section)| > 2
  {
  }

  /** No two keys have the same name. */
  lemma NamesDiffer(a: Key, b: Key)
    requires NameOf(a) == NameOf(b)
    ensures a == b
  {
    hide SectionName, SettingName, MarkOf, Mark;
    SectionNamesAreLong(SectionOf(a));
    SectionNamesAreLong(SectionOf(b));
    assert SectionName(SectionOf(a))[..2] == NameOf(a)[..2];
    assert SectionName(SectionOf(b))[..2] == NameOf(b)[..2];
    SectionsDiffer(SectionOf(a), SectionOf(b));
    assert SettingName(a) == NameOf(a)[|SectionName(SectionOf(a))|..];
    assert SettingName(b) == NameOf(b)[|SectionName(SectionOf(b))|..];
    SettingIsNamed(a);
    SettingIsNamed(b);
    if SectionOf(a) == ProfileSection { ProfileMarksDiffer(a, b); } else { OtherMarksDiffer(a, b); }
  }

  // ---------------------------------------------------------------- every key is listed

  function RequiredPlace(k: Key): nat {
    match k
    case InstrumentDevice => 0
    case InstrumentPrimary => 1
    case InstrumentSecondary => 2
    case VoiceDevice => 3
    case VoicePrimary => 4
    case VoiceSecondary => 5
    case OutputDevice => 6
    case OutputPrimary => 7
    case OutputSecondary => 8
    case SampleRate => 9
    case BufferFrames => 10
    case InstrumentGain => 11
    case VoiceGain => 12
    case InstrumentEnabled => 13
    case VoiceEnabled => 14
    case WindowX => 15
    case WindowY => 16
    case WindowWidth => 17
    case WindowHeight => 18
    case WindowHasPosition => 19
    case _ => 20
  }

  function SessionPlace(k: Key): nat {
    match k
    case RemoteInstrumentGain => 0
    case RemoteVoiceGain => 1
    case TunerMutes => 2
    case RecordDirectory => 3
    case RecordLocalInstrument => 4
    case RecordLocalVoice => 5
    case RecordRemoteInstrument => 6
    case RecordRemoteVoice => 7
    case NetworkPort => 8
    case NetworkMapping => 9
    case LatencyMode => 10
    case _ => 11
  }

  function ProfilePlace(k: Key): nat {
    match k
    case ProfileId => 0
    case ProfileHandle => 1
    case ProfileDisplayName => 2
    case ProfileAvatar => 3
    case ProfileCustomAvatar => 4
    case ProfileInstrument => 5
    case ProfileGenres => 6
    case ProfileBio => 7
    case ProfileRegion => 8
    case ShareInstrument => 9
    case ShareGenres => 10
    case ShareBio => 11
    case ShareRegion => 12
    case _ => 13
  }

  lemma AllKeysListed(k: Key)
    ensures k in KEYS && (k in REQUIRED || k in OPTIONAL)
  {
    hide RequiredPlace, SessionPlace, ProfilePlace;
  }
}

/** The agent's configuration file: how it is written, how it is read back, and what is lost on the way. */
module ConfigFile {
  import opened Text

  // ---------- configurations ----------

  datatype Kind = Words | Lowered | Flag | Whole | Natural | Span | Degrees

  /** An angle is a float64, told by its bits. */
  datatype Value =
    | Wording(text: string) | Switch(on: bool) | Number(n: int) | Duration(nanoseconds: int) | Angle(bits: int)

  datatype Field = Field(key: string, kind: Kind, default: Value)

  datatype Section = Section(name: string, fields: seq<Field>)

  /** The values by section and key, and which collectors are on. */
  datatype Config = Config(version: int, values: map<(string, string), Value>, collectors: map<string, bool>)

  /** Text forms of durations and coordinates, as the standard library writes and reads them. */
  datatype Codec = Codec(show: Value -> string, read: (Kind, string) -> Option<Value>)

  const MAX_UINT := 0xFFFF_FFFF_FFFF_FFFF
  const VERSION := "version"
  const TELEMETRY := "telemetry"
  const COLLECTORS := "collectors"

  predicate Fits(kind: Kind, v: Value) {
    match kind
    case Words => v.Wording?
    case Lowered => v.Wording?
    case Flag => v.Switch?
    case Whole => v.Number? && -MAX_INT - 1 <= v.n <= MAX_INT
    case Natural => v.Number? && 0 <= v.n <= MAX_UINT
    case Span => v.Duration? && -MAX_INT - 1 <= v.nanoseconds <= MAX_INT
    case Degrees => v.Angle? && 0 <= v.bits <= MAX_UINT
  }

  // ---------- decimal numbers ----------

  function Decimal(n: nat): string {
    (if n < 10 then "" else Decimal(n / 10)) + [('0' as int + n % 10) as char]
  }

  function Shown(n: int): string {
    if n < 0 then "-" + Decimal(-n) else Decimal(n)
  }

  function Natural64(s: string): Option<int> {
    if s == "" || Digits(s) == None || Digits(s).value > MAX_UINT then None else Some(Digits(s).value)
  }

  // ---------- trimming ----------

  function TrimQuotesLeft(s: string): string {
    if s != "" && s[0] == '"' then TrimQuotesLeft(s[1..]) else s
  }

  function TrimQuotesRight(s: string): string {
    if s != "" && s[|s| - 1] == '"' then TrimQuotesRight(s[..|s| - 1]) else s
  }

  /** `strings.Trim(s, "\"")`. */
  function TrimQuotes(s: string): string {
    TrimQuotesRight(TrimQuotesLeft(s))
  }

  predicate EndsInColon(s: string) {
    s != "" && s[|s| - 1] == ':'
  }

  /** `strings.Cut(s, ":")`: where the first colon is. */
  function ColonAt(s: string): (at: Option<nat>)
    ensures at.Some? ==> at.value < |s| && s[at.value] == ':'
  {
    if s == "" then None
    else if s[0] == ':' then Some(0)
    else match ColonAt(s[1..])
      case Some(i) => Some(i + 1)
      case None => None
  }

  // ---------- reading ----------

  function ReadBool(s: string): bool {
    EqualFold(s, "true") || s == "1" || EqualFold(s, "yes")
  }

  function ReadValue(codec: Codec, kind: Kind, s: string): Option<Value> {
    match kind
    case Words => Some(Wording(s))
    case Lowered => Some(Wording(ToLower(s)))
    case Flag => Some(Switch(ReadBool(s)))
    case Whole => if Integer64(s) == None then None else Some(Number(Integer64(s).value))
    case Natural => if Natural64(s) == None then None else Some(Number(Natural64(s).value))
    case _ => codec.read(kind, s)
  }

  function FieldNamed(fields: seq<Field>, key: string): Option<Field> {
    if fields == [] then None
    else if fields[0].key == key then Some(fields[0]) else FieldNamed(fields[1..], key)
  }

  function FieldsOf(schema: seq<Section>, section: string): seq<Field> {
    if schema == [] then []
    else if schema[0].name == section then schema[0].fields else FieldsOf(schema[1..], section)
  }

  predicate IsCollector(section: string, key: string) {
    section == TELEMETRY && HasPrefix(key, COLLECTORS + ".")
  }

  /** `setValue`; None is an error. Keys that are not known are ignored. */
  function SetValue(schema: seq<Section>, codec: Codec, cfg: Config, section: string, key: string,
                    value: string): Option<Config> {
    if section == "" then
      if key != VERSION then Some(cfg)
      else if Integer64(value) == None then None
      else Some(cfg.(version := Integer64(value).value))
    else if IsCollector(section, key) then
      Some(cfg.(collectors := cfg.collectors[key[|COLLECTORS| + 1..] := ReadBool(value)]))
    else
      match FieldNamed(FieldsOf(schema, section), key)
      case None => Some(cfg)
      case Some(f) =>
        match ReadValue(codec, f.kind, value)
        case None => None
        case Some(v) => Some(cfg.(values := cfg.values[(section, key) := v]))
  }

  datatype Reader = Reader(section: string, subsection: string, cfg: Config)

  function Qualified(subsection: string, key: string): string {
    if subsection != "" then subsection + "." + key else key
  }

  /** One line. A carriage return at its end is trimmed like any other space. */
  function ReadLine(schema: seq<Section>, codec: Codec, r: Reader, raw: string): Option<Reader> {
    var line := TrimSpace(raw);
    if line == "" || line[0] == '#' then Some(r)
    else if EndsInColon(line) then
      var name := line[..|line| - 1];
      Some(if raw[0] != ' ' then Reader(name, "", r.cfg) else r.(subsection := name))
    else
      match ColonAt(line)
      case None => None
      case Some(i) =>
        var key, value := TrimSpace(line[..i]), TrimQuotes(TrimSpace(line[i + 1..]));
        match SetValue(schema, codec, r.cfg, r.section, Qualified(r.subsection, key), value)
        case None => None
        case Some(cfg) => Some(r.(cfg := cfg))
  }

  function ReadLines(schema: seq<Section>, codec: Codec, r: Reader, lines: seq<string>): Option<Reader>
    decreases |lines|
  {
    if lines == [] then Some(r)
    else match ReadLines(schema, codec, r, lines[..|lines| - 1])
      case None => None
      case Some(q) => ReadLine(schema, codec, q, lines[|lines| - 1])
  }

  // ---------- writing ----------

  function BoolText(b: bool): string {
    if b then "true" else "false"
  }

  function ValueText(codec: Codec, v: Value): string {
    match v
    case Wording(text) => text
    case Switch(on) => BoolText(on)
    case Number(n) => Shown(n)
    case _ => codec.show(v)
  }

  function ValueOf(cfg: Config, section: string, f: Field): Value {
    if (section, f.key) in cfg.values then cfg.values[(section, f.key)] else f.default
  }

  function FieldLine(key: string, text: string): string {
    "  " + key + ": " + text
  }

  function FieldLines(codec: Codec, cfg: Config, section: string, fields: seq<Field>): seq<string> {
    seq(|fields|, i requires 0 <= i < |fields| =>
        FieldLine(fields[i].key, ValueText(codec, ValueOf(cfg, section, fields[i]))))
  }

  function CollectorLine(name: string, on: bool): string {
    "    " + name + ": " + BoolText(on)
  }

  function CollectorEntries(collectors: map<string, bool>, names: seq<string>): seq<string>
    requires forall i :: 0 <= i < |names| ==> names[i] in collectors
  {
    seq(|names|, i requires 0 <= i < |names| => CollectorLine(names[i], collectors[names[i]]))
  }

  function CollectorLines(collectors: map<string, bool>, names: seq<string>): seq<string>
    requires forall i :: 0 <= i < |names| ==> names[i] in collectors
  {
    ["  " + COLLECTORS + ":"] + CollectorEntries(collectors, names)
  }

  function SectionLines(codec: Codec, cfg: Config, s: Section, names: seq<string>): seq<string>
    requires forall i :: 0 <= i < |names| ==> names[i] in cfg.collectors
  {
    [s.name + ":"] + FieldLines(codec, cfg, s.name, s.fields)
    + if s.name == TELEMETRY then CollectorLines(cfg.collectors, names) else []
  }

  /** The lines of the file; `names` are the collectors in the order they are written. */
  function Lines(codec: Codec, cfg: Config, schema: seq<Section>, names: seq<string>): seq<string>
    requires forall i :: 0 <= i < |names| ==> names[i] in cfg.collectors
    decreases |schema|
  {
    if schema == [] then [VERSION + ": " + Shown(cfg.version)]
    else Lines(codec, cfg, schema[..|schema| - 1], names) + SectionLines(codec, cfg, schema[|schema| - 1], names)
  }

  // ---------- text and lines ----------

  function Joined(lines: seq<string>): string
    decreases |lines|
  {
    if lines == [] then "" else lines[0] + "\n" + Joined(lines[1..])
  }

  /** `bufio.ScanLines`: what follows the last line break is a line unless it is empty. */
  function Scanned(text: string): seq<string> {
    var pieces := Split(text, '\n');
    if pieces[|pieces| - 1] == "" then pieces[..|pieces| - 1] else pieces
  }

  const DEFAULT_COLLECTORS := map["cpu" := true, "memory" := true, "disk" := true, "network" := true, "uptime" := true,
      "os" := true, "processes" := false]

  function KeysOf(schema: seq<Section>): set<(string, string)> {
    set j, i | 0 <= j < |schema| && 0 <= i < |schema[j].fields| :: (schema[j].name, schema[j].fields[i].key)
  }

  function DefaultAt(schema: seq<Section>, k: (string, string)): Value {
    var f := FieldNamed(FieldsOf(schema, k.0), k.1);
    if f.Some? then f.value.default else Wording("")
  }

  function Default(schema: seq<Section>): Config {
    Config(1, map k | k in KeysOf(schema) :: DefaultAt(schema, k), DEFAULT_COLLECTORS)
  }

  // ---------- the agent's own configuration ----------

  const SECOND := 1_000_000_000
  const MINUTE := 60 * SECOND
  const HOUR := 60 * MINUTE
  const MIB := 1024 * 1024

  const SERVER := Section("server", [
    Field("endpoint", Words, Wording("https://127.0.0.1:9443")),
    Field("ca_file", Words, Wording("")),
    Field("connect_timeout", Span, Duration(15 * SECOND))])

  const IDENTITY := Section("identity", [
    Field("state_dir", Words, Wording("/var/lib/edge-agent/identity")),
    Field("use_tpm", Flag, Switch(false))])

  const STORAGE := Section("storage", [
    Field("state_dir", Words, Wording("/var/lib/edge-agent")),
    Field("max_queue_bytes", Whole, Number(100 * MIB)),
    Field("max_queue_age", Span, Duration(168 * HOUR))])

  const TELEMETRY_FIELDS := Section(TELEMETRY, [
    Field("interval", Span, Duration(60 * SECOND)),
    Field("jitter", Span, Duration(10 * SECOND))])

  const JOBS := Section("jobs", [
    Field("max_concurrent", Whole, Number(2)),
    Field("default_timeout", Span, Duration(10 * MINUTE)),
    Field("allow_shell", Flag, Switch(false))])

  const CONTAINERS := Section("containers", [
    Field("provider", Words, Wording("docker")),
    Field("socket", Words, Wording("unix:///var/run/docker.sock"))])

  const GATEWAY := Section("gateway", [
    Field("enabled", Flag, Switch(true)),
    Field("connector_dir", Words, Wording("/etc/edge-agent/connectors.d"))])

  const LOCATION := Section("location", [
    Field("source", Lowered, Wording("disabled")),
    Field("latitude", Degrees, Angle(0)),
    Field("longitude", Degrees, Angle(0)),
    Field("label", Words, Wording("")),
    Field("gpsd_address", Words, Wording("127.0.0.1:2947")),
    Field("ip_url", Words, Wording("https://ipwho.is/"))])

  const OTA := Section("ota", [
    Field("enabled", Flag, Switch(true)),
    Field("product", Words, Wording("")),
    Field("state_dir", Words, Wording("/var/lib/edge-agent/ota")),
    Field("staging_dir", Words, Wording("/var/lib/edge-agent/ota/staging")),
    Field("trusted_keys_dir", Words, Wording("/etc/edge-agent/trusted-update-keys")),
    Field("plugin_dir", Words, Wording("/usr/libexec/edge-agent/ota")),
    Field("max_artifact_bytes", Whole, Number(4096 * MIB)),
    Field("min_free_bytes", Natural, Number(256 * MIB)),
    Field("download_timeout", Span, Duration(2 * HOUR)),
    Field("health_timeout", Span, Duration(2 * MINUTE)),
    Field("health_check_command", Words, Wording("")),
    Field("auto_reboot", Flag, Switch(false))])

  const SCHEMA := [SERVER, IDENTITY, STORAGE, TELEMETRY_FIELDS, JOBS, CONTAINERS, GATEWAY, LOCATION, OTA]

  // ---------- the file ----------

  /** What a file loads as; None is any error. */
  function Loaded(codec: Codec, text: string, valid: Config -> bool): Option<Config> {
    match ReadLines(SCHEMA, codec, Reader("", "", Default(SCHEMA)), Scanned(text))
    case None => None
    case Some(r) => if valid(r.cfg) then Some(r.cfg) else None
  }

  lemma {:induction false} ReadNone(schema: seq<Section>, codec: Codec, r: Reader, lines: seq<string>, n: nat)
    requires n <= |lines| && ReadLines(schema, codec, r, lines[..n]) == None
    ensures ReadLines(schema, codec, r, lines) == None
    decreases |lines|
  {
    if n < |lines| {
      assert lines[..|lines| - 1][..n] == lines[..n];
      ReadNone(schema, codec, r, lines[..|lines| - 1], n);
    } else {
      assert lines[..n] == lines;
    }
  }

  lemma {:induction false} ReadsOn(schema: seq<Section>, codec: Codec, start: Reader, lines: seq<string>, n: nat,
                                   r: Reader)
    requires n < |lines| && ReadLines(schema, codec, start, lines[..n]) == Some(r)
    ensures ReadLines(schema, codec, start, lines[..n + 1]) == ReadLine(schema, codec, r, lines[n])
  {
    assert lines[..n + 1][..n] == lines[..n];
  }

  /** `valid` is the check of the finished configuration. */
  method Load(codec: Codec, text: string, valid: Config -> bool) returns (loaded: Option<Config>)
    ensures loaded == Loaded(codec, text, valid)
  {
    var cfg := Default(SCHEMA);
    var section, subsection := "", "";
    var lines := Scanned(text);
    ghost var start := Reader("", "", cfg);
    for n := 0 to |lines|
      invariant ReadLines(SCHEMA, codec, start, lines[..n]) == Some(Reader(section, subsection, cfg))
    {
      ReadsOn(SCHEMA, codec, start, lines, n, Reader(section, subsection, cfg));
      var raw := lines[n];
      var line := TrimSpace(raw);
      if line == "" || line[0] == '#' { continue; }
      if EndsInColon(line) {
        if raw[0] != ' ' {
          section, subsection := line[..|line| - 1], "";
        } else {
          subsection := line[..|line| - 1];
        }
        continue;
      }
      var changed := Assign(codec, Reader(section, subsection, cfg), cfg, section, subsection, line);
      if changed == None { ReadNone(SCHEMA, codec, start, lines, n + 1); return None; }
      cfg := changed.value;
    }
    assert lines[..|lines|] == lines;
    loaded := if valid(cfg) then Some(cfg) else None;
  }

  /** A line with a key and a value. */
  method Assign(codec: Codec, ghost r: Reader, cfg: Config, section: string, subsection: string,
                line: string) returns (changed: Option<Config>)
    requires r == Reader(section, subsection, cfg) && line != "" && line[0] != '#' && !EndsInColon(line)
    ensures forall raw :: TrimSpace(raw) == line ==>
              ReadLine(SCHEMA, codec, r, raw) == if changed == None then None else Some(r.(cfg := changed.value))
  {
    var at := ColonAt(line);
    if at == None { return None; }
    var key, value := TrimSpace(line[..at.value]), TrimQuotes(TrimSpace(line[at.value + 1..]));
    if subsection != "" { key := subsection + "." + key; }
    changed := SetValue(SCHEMA, codec, cfg, section, key, value);
  }

  lemma {:induction false} JoinedConcat(a: seq<string>, b: seq<string>)
    ensures Joined(a + b) == Joined(a) + Joined(b)
  {
    if a == [] {
      assert a + b == b;
    } else {
      assert (a + b)[1..] == a[1..] + b;
      JoinedConcat(a[1..], b);
    }
  }

  lemma {:induction false} JoinedMore(a: seq<string>, line: string)
    ensures Joined(a + [line]) == Joined(a) + line + "\n"
  {
    JoinedConcat(a, [line]);
    assert [line][1..] == [];
  }

  /** An order to write the collectors in. */
  ghost predicate Names(names: seq<string>, cfg: Config) {
    forall name :: name in names <==> name in cfg.collectors
  }

  /** `render`, in whatever order the map of collectors is walked. */
  method Render(codec: Codec, cfg: Config) returns (out: string)
    ensures exists names :: Names(names, cfg) && out == Joined(Lines(codec, cfg, SCHEMA, names))
  {
    var names := CollectorNames(cfg);
    out := "version: " + Shown(cfg.version) + "\n";
    JoinedMore([], VERSION + ": " + Shown(cfg.version));
    assert [] + [VERSION + ": " + Shown(cfg.version)] == Lines(codec, cfg, SCHEMA[..0], names);
    for n := 0 to |SCHEMA|
      invariant out == Joined(Lines(codec, cfg, SCHEMA[..n], names))
    {
      var text := RenderSection(codec, cfg, SCHEMA[n], names);
      JoinedConcat(Lines(codec, cfg, SCHEMA[..n], names), SectionLines(codec, cfg, SCHEMA[n], names));
      assert SCHEMA[..n + 1][..n] == SCHEMA[..n];
      out := out + text;
    }
    assert SCHEMA[..|SCHEMA|] == SCHEMA;
  }

  method CollectorNames(cfg: Config) returns (names: seq<string>)
    ensures Names(names, cfg)
  {
    names := [];
    var left := cfg.collectors.Keys;
    while left != {}
      invariant left <= cfg.collectors.Keys
      invariant forall name :: name in names <==> name in cfg.collectors && name !in left
    {
      var name :| name in left;
      left := left - {name};
      names := names + [name];
    }
  }

  method RenderSection(codec: Codec, cfg: Config, s: Section, names: seq<string>) returns (out: string)
    requires forall i :: 0 <= i < |names| ==> names[i] in cfg.collectors
    ensures out == Joined(SectionLines(codec, cfg, s, names))
  {
    var lines := FieldLines(codec, cfg, s.name, s.fields);
    out := s.name + ":" + "\n";
    JoinedMore([], s.name + ":");
    assert [s.name + ":"] + lines[..0] == [s.name + ":"] && [] + [s.name + ":"] == [s.name + ":"];
    for i := 0 to |s.fields|
      invariant out == Joined([s.name + ":"] + lines[..i])
    {
      out := out + FieldLine(s.fields[i].key, ValueText(codec, ValueOf(cfg, s.name, s.fields[i]))) + "\n";
      JoinedMore([s.name + ":"] + lines[..i], lines[i]);
      assert [s.name + ":"] + lines[..i] + [lines[i]] == [s.name + ":"] + lines[..i + 1];
    }
    assert lines[..|s.fields|] == lines;
    if s.name == TELEMETRY {
      var text := RenderCollectors(cfg, names);
      JoinedConcat([s.name + ":"] + lines, CollectorLines(cfg.collectors, names));
      out := out + text;
    } else {
      assert [s.name + ":"] + lines + [] == [s.name + ":"] + lines;
    }
  }

  method RenderCollectors(cfg: Config, names: seq<string>) returns (out: string)
    requires forall i :: 0 <= i < |names| ==> names[i] in cfg.collectors
    ensures out == Joined(CollectorLines(cfg.collectors, names))
  {
    var lines := CollectorLines(cfg.collectors, names);
    out := "  " + COLLECTORS + ":" + "\n";
    JoinedMore([], lines[0]);
    assert lines[..1] == [] + [lines[0]];
    for i := 0 to |names|
      invariant out == Joined(lines[..i + 1])
    {
      out := out + CollectorLine(names[i], cfg.collectors[names[i]]) + "\n";
      JoinedMore(lines[..i + 1], lines[i + 1]);
      assert lines[..i + 2] == lines[..i + 1] + [lines[i + 1]];
    }
    assert lines[..|names| + 1] == lines;
  }
}

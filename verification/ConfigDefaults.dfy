/** A codec and a configuration for which the round trip holds: its conditions can be met, and the agent's own
    configuration meets them. */
module ConfigDefaults {
  import opened Text
  import opened ConfigFile
  import opened ConfigLines
  import opened ConfigSections
  import opened ConfigRoundTrip

  /** Texts of durations and angles that serve for every configuration: plain numbers. */
  const PLAIN_CODEC := Codec(
    (v: Value) => if v.Duration? then Shown(v.nanoseconds) else if v.Angle? then Shown(v.bits) else "",
    (kind: Kind, s: string) =>
      if kind.Span? then (if Integer64(s).Some? then Some(Duration(Integer64(s).value)) else None)
      else if Natural64(s).Some? then Some(Angle(Natural64(s).value)) else None)

  lemma {:induction false} PlainReadsBack(kind: Kind, v: Value)
    requires Fits(kind, v)
    ensures ReadsBack(PLAIN_CODEC, v)
  {
    if v.Duration? {
      IntegerBack(v.nanoseconds);
      NumberIsSolid(v.nanoseconds);
    } else if v.Angle? {
      NaturalBack(v.bits);
      NumberIsSolid(v.bits);
    }
  }

  ghost predicate ServesAll(codec: Codec) {
    forall cfg :: WellFormed(cfg, SCHEMA) && cfg.values.Keys == KeysOf(SCHEMA) ==> Readable(codec, cfg)
  }

  /** What the round trip asks of a codec can be met, by one codec for all configurations. */
  lemma {:induction false} SomeCodecServesAll()
    ensures exists codec :: ServesAll(codec)
  {
    forall cfg | WellFormed(cfg, SCHEMA) && cfg.values.Keys == KeysOf(SCHEMA) ensures Readable(PLAIN_CODEC, cfg) {
      forall k | k in cfg.values ensures ReadsBack(PLAIN_CODEC, cfg.values[k]) {
        var j, i :| 0 <= j < |SCHEMA| && 0 <= i < |SCHEMA[j].fields| && k == (SCHEMA[j].name, SCHEMA[j].fields[i].key);
        PlainReadsBack(SCHEMA[j].fields[i].kind, cfg.values[k]);
      }
    }
    assert ServesAll(PLAIN_CODEC);
  }

  /** A default that fits its field, is a single line, and is left alone by trimming and unquoting. */
  predicate PlainDefault(f: Field) {
    && Fits(f.kind, f.default) && Reread(f.kind, f.default) == f.default
    && (f.default.Wording? ==> '\n' !in f.default.text)
  }

  predicate PlainDefaults(schema: seq<Section>) {
    forall j, i :: 0 <= j < |schema| && 0 <= i < |schema[j].fields| ==> PlainDefault(schema[j].fields[i])
  }

  lemma {:induction false} DefaultIsAt(schema: seq<Section>, j: nat, i: nat)
    requires GoodSchema(schema) && j < |schema| && i < |schema[j].fields|
    ensures var k := (schema[j].name, schema[j].fields[i].key);
            k in Default(schema).values && Default(schema).values[k] == schema[j].fields[i].default
  {
    assert GoodSection(schema[j]);
    FieldsOfSection(schema, j);
    FieldNamedAt(schema[j].fields, i);
  }

  lemma {:induction false} DefaultIsWellFormed(schema: seq<Section>)
    requires GoodSchema(schema) && PlainDefaults(schema)
    ensures WellFormed(Default(schema), schema) && SingleLined(Default(schema))
    ensures forall j :: 0 <= j < |schema| ==> forall i :: 0 <= i < |schema[j].fields| ==>
              ValueOf(Default(schema), schema[j].name, schema[j].fields[i]) == schema[j].fields[i].default
  {
    var cfg := Default(schema);
    forall j, i | 0 <= j < |schema| && 0 <= i < |schema[j].fields|
      ensures var f := schema[j].fields[i];
              && (schema[j].name, f.key) in cfg.values && cfg.values[(schema[j].name, f.key)] == f.default
              && PlainDefault(f)
    {
      DefaultIsAt(schema, j, i);
    }
    forall k | k in cfg.values && cfg.values[k].Wording? ensures '\n' !in cfg.values[k].text {
      var j, i :| 0 <= j < |schema| && 0 <= i < |schema[j].fields| && k == (schema[j].name, schema[j].fields[i].key);
      assert PlainDefault(schema[j].fields[i]);
    }
  }

  predicate PlainEnd(c: char) {
    !IsSpace(c) && c != '"'
  }

  /** A text that is plainly kept. */
  predicate PlainText(text: string) {
    (text == "" || (PlainEnd(text[0]) && PlainEnd(text[|text| - 1]))) && '\n' !in text
  }

  lemma {:induction false} FieldIsPlain(f: Field)
    requires Fits(f.kind, f.default) && (f.default.Wording? ==> PlainText(f.default.text))
    requires f.kind == Lowered ==> ToLower(f.default.text) == f.default.text
    ensures PlainDefault(f)
  {
    if f.default.Wording? { assert TrimQuotes(TrimSpace(f.default.text)) == f.default.text; }
  }

  lemma {:induction false} AddressesArePlain()
    ensures PlainText("https://127.0.0.1:9443") && PlainText("127.0.0.1:2947") && PlainText("https://ipwho.is/")
  {}

  lemma {:induction false} WordsArePlain()
    ensures PlainText("") && PlainText("docker") && PlainText("disabled")
  {}

  lemma {:induction false} SocketIsPlain()
    ensures PlainText("unix:///var/run/docker.sock") && PlainText("/etc/edge-agent/connectors.d")
  {}

  lemma {:induction false} StatePathsArePlain()
    ensures PlainText("/var/lib/edge-agent/identity") && PlainText("/var/lib/edge-agent")
  {}

  lemma {:induction false} OtaPathsArePlain()
    ensures PlainText("/var/lib/edge-agent/ota") && PlainText("/var/lib/edge-agent/ota/staging")
  {}

  lemma {:induction false} OtherOtaPathsArePlain()
    ensures PlainText("/etc/edge-agent/trusted-update-keys") && PlainText("/usr/libexec/edge-agent/ota")
  {}

  predicate FitsField(f: Field) {
    && Fits(f.kind, f.default)
    && (f.default.Wording? ==> PlainText(f.default.text))
    && (f.kind == Lowered ==> f.default == Wording("disabled"))
  }

  predicate PlainTexts(s: Section) {
    forall i :: 0 <= i < |s.fields| ==> FitsField(s.fields[i])
  }

  lemma {:induction false} FirstSectionsArePlain()
    ensures PlainTexts(SERVER) && PlainTexts(IDENTITY) && PlainTexts(STORAGE)
    ensures PlainTexts(TELEMETRY_FIELDS) && PlainTexts(JOBS)
  {
    AddressesArePlain();
    WordsArePlain();
    StatePathsArePlain();
  }

  lemma {:induction false} LaterSectionsArePlain()
    ensures PlainTexts(CONTAINERS) && PlainTexts(GATEWAY) && PlainTexts(LOCATION)
  {
    AddressesArePlain();
    WordsArePlain();
    SocketIsPlain();
  }

  lemma {:induction false} OtaIsPlain()
    ensures PlainTexts(OTA)
  {
    WordsArePlain();
    OtaPathsArePlain();
    OtherOtaPathsArePlain();
    forall i | 0 <= i < |OTA.fields| ensures FitsField(OTA.fields[i]) {}
  }

  lemma {:induction false} SchemaIsPlain()
    ensures PlainDefaults(SCHEMA)
  {
    FirstSectionsArePlain();
    LaterSectionsArePlain();
    OtaIsPlain();
    forall j | 0 <= j < |SCHEMA| ensures PlainTexts(SCHEMA[j]) {}
    forall j, i | 0 <= j < |SCHEMA| && 0 <= i < |SCHEMA[j].fields| ensures PlainDefault(SCHEMA[j].fields[i]) {
      assert PlainTexts(SCHEMA[j]) && FitsField(SCHEMA[j].fields[i]);
      DisabledIsLower();
      FieldIsPlain(SCHEMA[j].fields[i]);
    }
  }

  lemma {:induction false} DisabledIsLower()
    ensures ToLower("disabled") == "disabled"
  {}

  /** The configuration that the agent starts with comes back from its own file. */
  lemma {:induction false} DefaultComesBack(codec: Codec, names: seq<string>, valid: Config -> bool)
    requires Readable(codec, Default(SCHEMA)) && valid(Default(SCHEMA))
    requires forall name :: name in names <==> name in DEFAULT_COLLECTORS
    ensures Loaded(codec, Joined(Lines(codec, Default(SCHEMA), SCHEMA, names)), valid) == Some(Default(SCHEMA))
  {
    SchemaIsGood();
    SchemaIsPlain();
    DefaultIsWellFormed(SCHEMA);
    DefaultNamesAreClean();
    LoadAfterRender(codec, Default(SCHEMA), names, valid);
  }

  /** The starting configuration has this value for the key of the section. */
  predicate StartsWith(section: string, key: string, v: Value) {
    (section, key) in Default(SCHEMA).values && Default(SCHEMA).values[(section, key)] == v
  }

  lemma {:induction false} StartsAt(s: Section, j: nat, i: nat, key: string, v: Value)
    requires j < |SCHEMA| && SCHEMA[j] == s && i < |s.fields| && s.fields[i].key == key && s.fields[i].default == v
    ensures StartsWith(s.name, key, v)
  {
    SchemaIsGood();
    DefaultIsAt(SCHEMA, j, i);
  }

  /** The times and limits that the agent starts with; a second is 1_000_000_000. */
  lemma {:induction false} StartingTimes()
    ensures StartsWith("server", "connect_timeout", Duration(15_000_000_000))
    ensures StartsWith("telemetry", "interval", Duration(60_000_000_000))
    ensures StartsWith("telemetry", "jitter", Duration(10_000_000_000))
    ensures StartsWith("jobs", "default_timeout", Duration(600_000_000_000))
  {
    StartsAt(SERVER, 0, 2, "connect_timeout", Duration(15_000_000_000));
    StartsAt(TELEMETRY_FIELDS, 3, 0, "interval", Duration(60_000_000_000));
    StartsAt(TELEMETRY_FIELDS, 3, 1, "jitter", Duration(10_000_000_000));
    StartsAt(JOBS, 4, 1, "default_timeout", Duration(600_000_000_000));
  }

  lemma {:induction false} StartingLimits()
    ensures StartsWith("storage", "max_queue_bytes", Number(104_857_600))
    ensures StartsWith("storage", "max_queue_age", Duration(604_800_000_000_000))
    ensures StartsWith("jobs", "max_concurrent", Number(2)) && StartsWith("jobs", "allow_shell", Switch(false))
  {
    StartsAt(STORAGE, 2, 1, "max_queue_bytes", Number(104_857_600));
    StartsAt(STORAGE, 2, 2, "max_queue_age", Duration(604_800_000_000_000));
    StartsAt(JOBS, 4, 0, "max_concurrent", Number(2));
    StartsAt(JOBS, 4, 2, "allow_shell", Switch(false));
  }

  lemma {:induction false} StartingUpdateSizes()
    ensures StartsWith("ota", "max_artifact_bytes", Number(4_294_967_296))
    ensures StartsWith("ota", "min_free_bytes", Number(268_435_456))
  {
    StartsAt(OTA, 8, 6, "max_artifact_bytes", Number(4_294_967_296));
    StartsAt(OTA, 8, 7, "min_free_bytes", Number(268_435_456));
  }

  lemma {:induction false} StartingUpdateTimes()
    ensures StartsWith("ota", "download_timeout", Duration(7_200_000_000_000))
    ensures StartsWith("ota", "health_timeout", Duration(120_000_000_000))
  {
    StartsAt(OTA, 8, 8, "download_timeout", Duration(7_200_000_000_000));
    StartsAt(OTA, 8, 9, "health_timeout", Duration(120_000_000_000));
  }
}

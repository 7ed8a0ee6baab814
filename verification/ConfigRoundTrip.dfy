/** Which configurations come back from their own file. */
module ConfigRoundTrip {
  import opened Text
  import opened ConfigFile
  import opened ConfigLines
  import opened ConfigSections

  /** No text before, or of, a field may swallow it, and then trimming, unquoting and, for the location
      source, lower-casing must leave its text alone; a field that is swallowed must be as by default. */
  predicate FieldsSurvive(codec: Codec, cfg: Config, s: Section) {
    forall i :: 0 <= i < |s.fields| ==>
      var f, v := s.fields[i], ValueOf(cfg, s.name, s.fields[i]);
      if Open(codec, cfg, s, i + 1) then Reread(f.kind, v) == v else v == f.default
  }

  predicate CollectorsSurvive(collectors: map<string, bool>) {
    (forall name :: name in collectors ==> CleanName(name)) && DEFAULT_COLLECTORS.Keys <= collectors.Keys
  }

  lemma {:induction false} DefaultNamesAreClean()
    ensures forall name :: name in DEFAULT_COLLECTORS ==> CleanName(name)
  {
    forall name | name in DEFAULT_COLLECTORS ensures CleanName(name) {
      assert PlainKey("cpu") && PlainKey("memory") && PlainKey("disk") && PlainKey("network");
      assert PlainKey("uptime") && PlainKey("os") && PlainKey("processes");
      PlainIsTrimmed(name);
      assert KeyChar(name[0]);
    }
  }

  lemma {:induction false} CollectorsBack(after: map<string, bool>, collectors: map<string, bool>, names: seq<string>)
    requires forall name :: name in collectors <==> name in names
    requires CollectorsRead(after, DEFAULT_COLLECTORS, collectors, names)
    ensures after == collectors <==> CollectorsSurvive(collectors)
  {
    DefaultNamesAreClean();
    if forall name :: name in collectors ==> CleanName(name) {
      assert AllClean(names) by {
        forall i | 0 <= i < |names| ensures CleanName(names[i]) { assert names[i] in collectors; }
      }
      if DEFAULT_COLLECTORS.Keys <= collectors.Keys {
        assert after == collectors;
      } else {
        var name :| name in DEFAULT_COLLECTORS && name !in collectors;
        assert name in after;
      }
    } else {
      var name :| name in collectors && !CleanName(name);
      assert name !in after;
    }
  }

  /** A configuration is read back from its own file exactly when its texts and collectors survive. */
  lemma {:induction false} RoundTripExactlyWhen(schema: seq<Section>, codec: Codec, cfg: Config, names: seq<string>)
    requires GoodSchema(schema) && Readable(codec, cfg) && WellFormed(cfg, schema) && cfg.values.Keys == KeysOf(schema)
    requires HasTelemetry(schema, |schema|) && forall name :: name in cfg.collectors <==> name in names
    ensures var q := ReadLines(schema, codec, Reader("", "", Default(schema)), Lines(codec, cfg, schema, names));
            q.Some? && (q.value.cfg == cfg <==>
              CollectorsSurvive(cfg.collectors) && forall j :: 0 <= j < |schema| ==>
                  FieldsSurvive(codec, cfg, schema[j]))
  {
    forall i | 0 <= i < |names| ensures names[i] in cfg.collectors {}
    ReadAll(schema, codec, cfg, names, |schema|);
    assert schema[..|schema|] == schema;
    var q := ReadLines(schema, codec, Reader("", "", Default(schema)), Lines(codec, cfg, schema, names)).value.cfg;
    CollectorsBack(q.collectors, cfg.collectors, names);
    ValuesBack(q.values, codec, cfg, schema);
    forall j | 0 <= j < |schema| ensures FieldsSurvive(codec, cfg, schema[j]) <==> AsExpected(codec, cfg, schema[j]) {
      SurvivesAsExpected(codec, cfg, schema[j]);
    }
    assert q == cfg <==> q.values == cfg.values && q.collectors == cfg.collectors;
  }

  predicate AsExpected(codec: Codec, cfg: Config, s: Section) {
    forall i :: 0 <= i < |s.fields| ==> ValueOf(cfg, s.name, s.fields[i]) == Expected(codec, cfg, s, i)
  }

  lemma {:induction false} SurvivesAsExpected(codec: Codec, cfg: Config, s: Section)
    ensures FieldsSurvive(codec, cfg, s) <==> AsExpected(codec, cfg, s)
  {}

  lemma {:induction false} ValuesBack(values: map<(string, string), Value>, codec: Codec, cfg: Config,
                                      schema: seq<Section>)
    requires ValuesAfter(values, codec, cfg, schema, |schema|) && cfg.values.Keys == KeysOf(schema)
    ensures values == cfg.values <==> forall j :: 0 <= j < |schema| ==> AsExpected(codec, cfg, schema[j])
  {
    forall j, i | 0 <= j < |schema| && 0 <= i < |schema[j].fields|
      ensures (schema[j].name, schema[j].fields[i].key) in cfg.values
    {
      assert (schema[j].name, schema[j].fields[i].key) in KeysOf(schema);
    }
    if forall j :: 0 <= j < |schema| ==> AsExpected(codec, cfg, schema[j]) {
      forall k | k in values ensures values[k] == cfg.values[k] {
        var j, i :| 0 <= j < |schema| && 0 <= i < |schema[j].fields| && k == (schema[j].name, schema[j].fields[i].key);
        assert AsExpected(codec, cfg, schema[j]);
      }
    } else {
      var j :| 0 <= j < |schema| && !AsExpected(codec, cfg, schema[j]);
      var i :| 0 <= i < |schema[j].fields|
          && ValueOf(cfg, schema[j].name, schema[j].fields[i]) != Expected(codec, cfg, schema[j], i);
      assert values[(schema[j].name, schema[j].fields[i].key)] != cfg.values[(schema[j].name, schema[j].fields[i].key)];
    }
  }

  /** A text that needs no quotes and no care: not blank, no spaces or quotes at its ends, no colon at its end. */
  predicate CleanText(text: string) {
    text != "" && TrimSpace(text) == text && TrimQuotes(text) == text && !EndsInColon(text)
  }

  predicate CleanFields(cfg: Config, s: Section) {
    forall i :: 0 <= i < |s.fields| ==>
      var v := ValueOf(cfg, s.name, s.fields[i]);
      v.Wording? ==> CleanText(v.text) && (s.fields[i].kind == Lowered ==> ToLower(v.text) == v.text)
  }

  lemma {:induction false} CleanTextStays(text: string)
    requires CleanText(text)
    ensures !Swallows(text)
  {
    TrimRightPrefix(TrimLeft(text));
    ShorterLeft(text);
    TrimRightPrefix(text);
    assert |TrimRight(TrimLeft(text))| <= |TrimLeft(text)| <= |text|;
    TrimLeftKeeps(text);
  }

  lemma {:induction false} TrimLeftKeeps(s: string)
    requires |TrimLeft(s)| >= |s|
    ensures TrimLeft(s) == s
  {
    if s != "" { ShorterLeft(s[1..]); }
  }

  /** A configuration with clean texts survives. */
  lemma {:induction false} CleanFieldsSurvive(codec: Codec, cfg: Config, schema: seq<Section>, j: nat)
    requires Readable(codec, cfg) && WellFormed(cfg, schema) && j < |schema| && CleanFields(cfg, schema[j])
    ensures FieldsSurvive(codec, cfg, schema[j])
  {
    var s := schema[j];
    forall i | 0 <= i < |s.fields| ensures !Swallows(TextAt(codec, cfg, s, i)) {
      var v := ValueOf(cfg, s.name, s.fields[i]);
      assert (s.name, s.fields[i].key) in cfg.values;
      ValueBack(codec, s.fields[i].kind, v);
      if v.Wording? { CleanTextStays(v.text); }
    }
  }

  // ---------- the agent's own schema ----------

  /** Keys told apart by their length and first letter. */
  predicate ToldApart(fields: seq<Field>) {
    forall i, j :: 0 <= i < j < |fields| ==>
      |fields[i].key| != |fields[j].key|
          || (fields[i].key != "" && fields[j].key != "" && fields[i].key[0] != fields[j].key[0])
  }

  lemma {:induction false} ToldApartIsDistinct(fields: seq<Field>)
    requires ToldApart(fields)
    ensures DistinctKeys(fields)
  {}

  lemma {:induction false} ServerIsGood()
    ensures GoodSection(SERVER)
  {
    assert PlainKey("server") && PlainKey("endpoint") && PlainKey("ca_file") && PlainKey("connect_timeout");
    ToldApartIsDistinct(SERVER.fields);
  }

  lemma {:induction false} IdentityIsGood()
    ensures GoodSection(IDENTITY)
  {
    assert PlainKey("identity") && PlainKey("state_dir") && PlainKey("use_tpm");
    ToldApartIsDistinct(IDENTITY.fields);
  }

  lemma {:induction false} GatewayIsGood()
    ensures GoodSection(GATEWAY) && GoodSection(CONTAINERS)
  {
    assert PlainKey("gateway") && PlainKey("enabled") && PlainKey("connector_dir");
    assert PlainKey("containers") && PlainKey("provider") && PlainKey("socket");
    ToldApartIsDistinct(GATEWAY.fields);
    ToldApartIsDistinct(CONTAINERS.fields);
  }

  lemma {:induction false} StorageIsGood()
    ensures GoodSection(STORAGE)
  {
    assert PlainKey("storage") && PlainKey("state_dir") && PlainKey("max_queue_bytes") && PlainKey("max_queue_age");
    ToldApartIsDistinct(STORAGE.fields);
  }

  lemma {:induction false} TelemetryIsGood()
    ensures GoodSection(TELEMETRY_FIELDS)
  {
    assert PlainKey(TELEMETRY) && PlainKey("interval") && PlainKey("jitter");
    ToldApartIsDistinct(TELEMETRY_FIELDS.fields);
  }

  lemma {:induction false} JobsIsGood()
    ensures GoodSection(JOBS)
  {
    assert PlainKey("jobs") && PlainKey("max_concurrent") && PlainKey("default_timeout") && PlainKey("allow_shell");
    ToldApartIsDistinct(JOBS.fields);
  }

  lemma {:induction false} LocationIsGood()
    ensures GoodSection(LOCATION)
  {
    LocationKeysArePlain();
    LocationKeysAreDistinct();
  }

  lemma {:induction false} LocationKeysArePlain()
    ensures PlainKey("location") && PlainKey("source") && PlainKey("latitude") && PlainKey("longitude")
    ensures PlainKey("label") && PlainKey("gpsd_address") && PlainKey("ip_url")
  {}

  lemma {:induction false} LocationKeysAreDistinct()
    ensures DistinctKeys(LOCATION.fields)
  {
    ToldApartIsDistinct(LOCATION.fields[..3]);
    ToldApartIsDistinct(LOCATION.fields[3..]);
    LocationHalvesAreDistinct();
    HalvesAreDistinct(LOCATION.fields, 3);
  }

  lemma {:induction false} LocationHalvesAreDistinct()
    ensures forall i, j :: 0 <= i < 3 <= j < |LOCATION.fields| ==> LOCATION.fields[i].key != LOCATION.fields[j].key
  {
    assert forall i, j :: 0 <= i < 3 <= j < |LOCATION.fields| ==>
      |LOCATION.fields[i].key| != |LOCATION.fields[j].key| || LOCATION.fields[i].key[0] != LOCATION.fields[j].key[0];
  }

  lemma {:induction false} OtaKeysArePlain()
    ensures PlainKey("enabled") && PlainKey("product") && PlainKey("state_dir") && PlainKey("staging_dir")
    ensures PlainKey("trusted_keys_dir") && PlainKey("plugin_dir")
  {}

  lemma {:induction false} OtherOtaKeysArePlain()
    ensures PlainKey("ota") && PlainKey("max_artifact_bytes") && PlainKey("min_free_bytes")
            && PlainKey("download_timeout")
    ensures PlainKey("health_timeout") && PlainKey("health_check_command") && PlainKey("auto_reboot")
  {}

  lemma {:induction false} OtaKeysAreDistinct()
    ensures DistinctKeys(OTA.fields)
  {
    ToldApartIsDistinct(OTA.fields[..6]);
    ToldApartIsDistinct(OTA.fields[6..]);
    OtaHalvesAreDistinct();
    HalvesAreDistinct(OTA.fields, 6);
  }

  lemma {:induction false} OtaHalvesAreDistinct()
    ensures forall i, j :: 0 <= i < 6 <= j < |OTA.fields| ==> OTA.fields[i].key != OTA.fields[j].key
  {
    assert forall i, j :: 0 <= i < 6 <= j < |OTA.fields| ==>
      |OTA.fields[i].key| != |OTA.fields[j].key| || OTA.fields[i].key[0] != OTA.fields[j].key[0];
  }

  lemma {:induction false} HalvesAreDistinct(fields: seq<Field>, n: nat)
    requires n <= |fields| && DistinctKeys(fields[..n]) && DistinctKeys(fields[n..])
    requires forall i, j :: 0 <= i < n <= j < |fields| ==> fields[i].key != fields[j].key
    ensures DistinctKeys(fields)
  {
    forall i, j | 0 <= i < j < |fields| ensures fields[i].key != fields[j].key {
      if j < n { assert fields[..n][i] == fields[i] && fields[..n][j] == fields[j]; }
      if i >= n { assert fields[n..][i - n] == fields[i] && fields[n..][j - n] == fields[j]; }
    }
  }

  lemma {:induction false} OtaIsGood()
    ensures GoodSection(OTA)
  {
    OtaKeysArePlain();
    OtherOtaKeysArePlain();
    OtaKeysAreDistinct();
  }

  lemma {:induction false} SchemaIsGood()
    ensures GoodSchema(SCHEMA) && HasTelemetry(SCHEMA, |SCHEMA|)
  {
    ServerIsGood();
    IdentityIsGood();
    StorageIsGood();
    TelemetryIsGood();
    JobsIsGood();
    GatewayIsGood();
    LocationIsGood();
    OtaIsGood();
    assert SCHEMA[3].name == TELEMETRY;
    NamesAreDistinct();
  }

  lemma {:induction false} NamesAreDistinct()
    ensures DistinctNames(SCHEMA)
  {
    assert forall i, j :: 0 <= i < j < |SCHEMA| ==>
      |SCHEMA[i].name| != |SCHEMA[j].name|
          || SCHEMA[i].name[|SCHEMA[i].name| - 2] != SCHEMA[j].name[|SCHEMA[j].name| - 2];
  }

  // ---------- the text of the file ----------

  predicate AllLines(lines: seq<string>) {
    forall i :: 0 <= i < |lines| ==> '\n' !in lines[i]
  }

  lemma {:induction false} AllLinesConcat(a: seq<string>, b: seq<string>)
    requires AllLines(a) && AllLines(b)
    ensures AllLines(a + b)
  {}

  /** No text or name of the configuration runs over a line. */
  predicate SingleLined(cfg: Config) {
    && (forall k :: k in cfg.values && cfg.values[k].Wording? ==> '\n' !in cfg.values[k].text)
    && (forall name :: name in cfg.collectors ==> '\n' !in name)
  }

  lemma {:induction false} SolidIsSingleLined(text: string)
    requires Solid(text) || PlainKey(text)
    ensures '\n' !in text
  {}

  lemma {:induction false} FieldLinesAreLines(codec: Codec, cfg: Config, schema: seq<Section>, j: nat)
    requires GoodSchema(schema) && Readable(codec, cfg) && WellFormed(cfg, schema) && SingleLined(cfg) && j < |schema|
    ensures AllLines(FieldLines(codec, cfg, schema[j].name, schema[j].fields))
  {
    var s := schema[j];
    assert GoodSection(s);
    forall i | 0 <= i < |s.fields| ensures '\n' !in FieldLine(s.fields[i].key, TextAt(codec, cfg, s, i)) {
      var v := ValueOf(cfg, s.name, s.fields[i]);
      assert (s.name, s.fields[i].key) in cfg.values;
      SolidIsSingleLined(s.fields[i].key);
      TextIsSingleLined(codec, s.fields[i].kind, v);
    }
  }

  lemma {:induction false} TextIsSingleLined(codec: Codec, kind: Kind, v: Value)
    requires ReadsBack(codec, v) && Fits(kind, v) && (v.Wording? ==> '\n' !in v.text)
    ensures '\n' !in ValueText(codec, v)
  {
    match v {
      case Wording(_) =>
      case Switch(on) => BoolBack(on); SolidIsSingleLined(BoolText(on));
      case Number(n) => NumberIsSolid(n); SolidIsSingleLined(Shown(n));
      case _ => SolidIsSingleLined(codec.show(v));
    }
  }

  lemma {:induction false} SectionLinesAreLines(codec: Codec, cfg: Config, schema: seq<Section>, j: nat,
                                                names: seq<string>)
    requires GoodSchema(schema) && Readable(codec, cfg) && WellFormed(cfg, schema) && SingleLined(cfg) && j < |schema|
    requires forall i :: 0 <= i < |names| ==> names[i] in cfg.collectors
    ensures AllLines(SectionLines(codec, cfg, schema[j], names))
  {
    FieldLinesAreLines(codec, cfg, schema, j);
    assert GoodSection(schema[j]);
    SolidIsSingleLined(schema[j].name);
    forall i | 0 <= i < |names| ensures '\n' !in CollectorLine(names[i], cfg.collectors[names[i]]) {
      BoolBack(cfg.collectors[names[i]]);
      SolidIsSingleLined(BoolText(cfg.collectors[names[i]]));
    }
  }

  lemma {:induction false} LinesAreLines(codec: Codec, cfg: Config, schema: seq<Section>, names: seq<string>, m: nat)
    requires GoodSchema(schema) && Readable(codec, cfg) && WellFormed(cfg, schema) && SingleLined(cfg) && m <= |schema|
    requires forall i :: 0 <= i < |names| ==> names[i] in cfg.collectors
    ensures AllLines(Lines(codec, cfg, schema[..m], names))
    decreases m
  {
    if m == 0 {
      NumberIsSolid(cfg.version);
      SolidIsSingleLined(Shown(cfg.version));
    } else {
      assert schema[..m][..m - 1] == schema[..m - 1];
      LinesAreLines(codec, cfg, schema, names, m - 1);
      SectionLinesAreLines(codec, cfg, schema, m - 1, names);
      AllLinesConcat(Lines(codec, cfg, schema[..m - 1], names), SectionLines(codec, cfg, schema[m - 1], names));
    }
  }

  predicate Survives(codec: Codec, cfg: Config) {
    CollectorsSurvive(cfg.collectors) && forall j :: 0 <= j < |SCHEMA| ==> FieldsSurvive(codec, cfg, SCHEMA[j])
  }

  /** Reading back the file that was written for a valid configuration, whose texts are single lines, gives
      the configuration again exactly when all its texts and collectors survive. */
  lemma {:induction false} LoadAfterRender(codec: Codec, cfg: Config, names: seq<string>, valid: Config -> bool)
    requires Readable(codec, cfg) && WellFormed(cfg, SCHEMA) && cfg.values.Keys == KeysOf(SCHEMA) && SingleLined(cfg)
    requires valid(cfg)
    requires forall name :: name in names <==> name in cfg.collectors
    ensures Loaded(codec, Joined(Lines(codec, cfg, SCHEMA, names)), valid) == Some(cfg) <==> Survives(codec, cfg)
  {
    SchemaIsGood();
    LinesAreLines(codec, cfg, SCHEMA, names, |SCHEMA|);
    assert SCHEMA[..|SCHEMA|] == SCHEMA;
    ScannedJoined(Lines(codec, cfg, SCHEMA, names));
    RoundTripExactlyWhen(SCHEMA, codec, cfg, names);
  }

  /** In particular, clean texts and clean collector names, the default ones among them, always come back. */
  lemma {:induction false} CleanConfigurationsComeBack(codec: Codec, cfg: Config, names: seq<string>,
                                                       valid: Config -> bool)
    requires Readable(codec, cfg) && WellFormed(cfg, SCHEMA) && cfg.values.Keys == KeysOf(SCHEMA) && SingleLined(cfg)
    requires valid(cfg)
    requires forall name :: name in names <==> name in cfg.collectors
    requires CollectorsSurvive(cfg.collectors) && forall j :: 0 <= j < |SCHEMA| ==> CleanFields(cfg, SCHEMA[j])
    ensures Loaded(codec, Joined(Lines(codec, cfg, SCHEMA, names)), valid) == Some(cfg)
  {
    forall j | 0 <= j < |SCHEMA| ensures FieldsSurvive(codec, cfg, SCHEMA[j]) {
      CleanFieldsSurvive(codec, cfg, SCHEMA, j);
    }
    LoadAfterRender(codec, cfg, names, valid);
  }

  /** With no CA file set, any connection timeout but the default is lost: the configuration does not come back. */
  lemma {:induction false} EmptyCaFileForgetsTheTimeout(codec: Codec, cfg: Config, names: seq<string>,
                                                        valid: Config -> bool)
    requires Readable(codec, cfg) && WellFormed(cfg, SCHEMA) && cfg.values.Keys == KeysOf(SCHEMA) && SingleLined(cfg)
    requires valid(cfg)
    requires forall name :: name in names <==> name in cfg.collectors
    requires ValueOf(cfg, SERVER.name, SERVER.fields[1]) == Wording("")
    requires ValueOf(cfg, SERVER.name, SERVER.fields[2]) != Duration(15 * SECOND)
    ensures Loaded(codec, Joined(Lines(codec, cfg, SCHEMA, names)), valid) != Some(cfg)
  {
    LoadAfterRender(codec, cfg, names, valid);
    assert Swallows(TextAt(codec, cfg, SERVER, 1));
    assert !Open(codec, cfg, SERVER, 3);
    assert !FieldsSurvive(codec, cfg, SCHEMA[0]);
  }
}

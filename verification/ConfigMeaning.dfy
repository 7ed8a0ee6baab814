/** What the lines of a configuration file look like and mean, in terms of their text. */
module ConfigMeaning {
  import opened Text
  import opened ConfigFile
  import opened ConfigLines

  // ---------- written ----------

  /** The lines of the first section, for any values in it. */
  lemma {:induction false} ServerLinesMean(codec: Codec, cfg: Config, endpoint: string, caFile: string, timeout: Value)
    requires ("server", "endpoint") in cfg.values && cfg.values[("server", "endpoint")] == Wording(endpoint)
    requires ("server", "ca_file") in cfg.values && cfg.values[("server", "ca_file")] == Wording(caFile)
    requires ("server", "connect_timeout") in cfg.values && cfg.values[("server", "connect_timeout")] == timeout
    requires timeout.Duration?
    ensures SectionLines(codec, cfg, SERVER, []) ==
              ["server:", "  endpoint: " + endpoint, "  ca_file: " + caFile,
                  "  connect_timeout: " + codec.show(timeout)]
  {
    var lines := FieldLines(codec, cfg, "server", SERVER.fields);
    assert lines[0] == "  endpoint: " + endpoint;
    assert lines[1] == "  ca_file: " + caFile;
    assert lines[2] == "  connect_timeout: " + codec.show(timeout);
    assert "server:" == "server" + ":";
    assert |"server"| != |TELEMETRY|;
  }

  /** The collectors are a list of their own, further in, each on or off. */
  lemma {:induction false} CollectorLinesMean(collectors: map<string, bool>, name: string)
    requires name in collectors
    ensures CollectorLines(collectors, [name])
            == ["  collectors:", "    " + name + ": " + if collectors[name] then "true" else "false"]
  {
    assert "  collectors:" == "  " + COLLECTORS + ":";
    assert CollectorEntries(collectors, [name])[0] == CollectorLine(name, collectors[name]);
  }

  lemma {:induction false} FirstLineMeans(codec: Codec, cfg: Config)
    requires cfg.version == 1
    ensures Lines(codec, cfg, [], []) == ["version: 1"]
  {
    assert Shown(1) == "1";
    assert "version: 1" == VERSION + ": " + "1";
  }

  // ---------- read ----------

  /** On is said by true or yes, in any case of letters, or by 1; anything else is off. */
  lemma {:induction false} ReadBoolMeans(s: string)
    ensures ReadBool(s) <==> s == "1" || EqualFold(s, "true") || EqualFold(s, "yes")
    ensures ReadBool("true") && ReadBool("TRUE") && ReadBool("Yes") && ReadBool("1")
    ensures !ReadBool("false") && !ReadBool("0") && !ReadBool("no") && !ReadBool("")
  {
    assert ToLower("TRUE") == "true" == ToLower("true");
    assert ToLower("Yes") == "yes" == ToLower("yes");
    assert |ToLower("false")| == 5 && |ToLower("0")| == 1 && |ToLower("no")| == 2 && |ToLower("")| == 0;
    assert |ToLower("true")| == 4 && |ToLower("yes")| == 3;
    assert "0"[0] != "1"[0];
  }

  /** Blank lines and comments change nothing. */
  lemma {:induction false} CommentsMean(schema: seq<Section>, codec: Codec, r: Reader, raw: string, i: nat)
    requires i <= |raw| && (forall k :: 0 <= k < i ==> raw[k] == ' ') && (i == |raw| || raw[i] == '#')
    ensures ReadLine(schema, codec, r, raw) == Some(r)
  {
    TrimLeftSpaces(raw[..i], raw[i..]);
    assert raw == raw[..i] + raw[i..];
    if i < |raw| {
      assert TrimLeft(raw[i..]) == raw[i..];
      TrimRightPrefix(raw[i..]);
      var n := RightTrimmed(raw[i..]);
      assert n > 0;
    }
  }

  /** A line that is neither blank, a comment, nor has a colon anywhere is an error. */
  lemma {:induction false} NoColonMeans(schema: seq<Section>, codec: Codec, r: Reader, raw: string)
    requires ':' !in raw && TrimSpace(raw) != "" && TrimSpace(raw)[0] != '#'
    ensures ReadLine(schema, codec, r, raw) == None
  {
    var i, n := TrimmedEnds(raw);
    NoColonAt(raw[i..n]);
  }

  lemma {:induction false} NoColonAt(s: string)
    requires ':' !in s
    ensures ColonAt(s) == None
  {
    if s != "" { NoColonAt(s[1..]); }
  }

  /** A key that its section does not have is ignored, and so is every key of a section there is not. */
  lemma {:induction false} UnknownKeysMean(schema: seq<Section>, codec: Codec, cfg: Config, section: string,
                                           key: string,
                                           value: string)
    requires section != "" && forall j, i :: 0 <= j < |schema| && 0 <= i < |schema[j].fields| ==>
                                schema[j].name == section ==> schema[j].fields[i].key != key
    requires section != "telemetry" || |key| < |"collectors."|
    ensures SetValue(schema, codec, cfg, section, key, value) == Some(cfg)
  {
    NoFieldOf(schema, section, key);
  }

  lemma {:induction false} NoFieldOf(schema: seq<Section>, section: string, key: string)
    requires forall j, i :: 0 <= j < |schema| && 0 <= i < |schema[j].fields| ==>
               schema[j].name == section ==> schema[j].fields[i].key != key
    ensures FieldNamed(FieldsOf(schema, section), key) == None
  {
    if schema != [] {
      if schema[0].name == section {
        NoSuchField(schema[0].fields, key);
      } else {
        assert forall j :: 0 <= j < |schema| - 1 ==> schema[1..][j] == schema[j + 1];
        NoFieldOf(schema[1..], section, key);
      }
    }
  }

  lemma {:induction false} NoSuchField(fields: seq<Field>, key: string)
    requires forall i :: 0 <= i < |fields| ==> fields[i].key != key
    ensures FieldNamed(fields, key) == None
  {
    if fields != [] {
      assert forall i :: 0 <= i < |fields| - 1 ==> fields[1..][i] == fields[i + 1];
      NoSuchField(fields[1..], key);
    }
  }

  /** Without a file's lines the configuration is the one the agent starts with. */
  lemma {:induction false} EmptyFileMeans(codec: Codec, valid: Config -> bool)
    requires valid(Default(SCHEMA))
    ensures Loaded(codec, "", valid) == Some(Default(SCHEMA))
  {
    assert Split("", '\n') == [""];
    assert Scanned("") == [];
  }
}

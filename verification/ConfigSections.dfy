/** Reading the sections that were written for a configuration: fields, collectors, and whole files. */
module ConfigSections {
  import opened Text
  import opened ConfigFile
  import opened ConfigLines

  // ---------- schemas ----------

  predicate DistinctKeys(fields: seq<Field>) {
    forall i, j :: 0 <= i < j < |fields| ==> fields[i].key != fields[j].key
  }

  predicate DistinctNames(schema: seq<Section>) {
    forall i, j :: 0 <= i < j < |schema| ==> schema[i].name != schema[j].name
  }

  predicate GoodFields(fields: seq<Field>) {
    DistinctKeys(fields) && forall i :: 0 <= i < |fields| ==> PlainKey(fields[i].key)
  }

  predicate GoodSection(s: Section) {
    && PlainKey(s.name) && GoodFields(s.fields)
    && (s.name == TELEMETRY ==> forall i :: 0 <= i < |s.fields| ==> s.fields[i].kind == Span)
  }

  predicate GoodSchema(schema: seq<Section>) {
    DistinctNames(schema) && forall j :: 0 <= j < |schema| ==> GoodSection(schema[j])
  }

  lemma {:induction false} FieldsOfSection(schema: seq<Section>, j: nat)
    requires DistinctNames(schema) && j < |schema|
    ensures FieldsOf(schema, schema[j].name) == schema[j].fields
  {
    if j > 0 {
      assert forall i, k :: 0 <= i < k < |schema| - 1 ==>
             schema[1..][i].name == schema[i + 1].name && schema[1..][k].name == schema[k + 1].name;
      FieldsOfSection(schema[1..], j - 1);
    }
  }

  lemma {:induction false} FieldNamedAt(fields: seq<Field>, i: nat)
    requires DistinctKeys(fields) && i < |fields|
    ensures FieldNamed(fields, fields[i].key) == Some(fields[i])
  {
    if i > 0 {
      assert forall j, k :: 0 <= j < k < |fields| - 1 ==>
             fields[1..][j].key == fields[j + 1].key && fields[1..][k].key == fields[k + 1].key;
      FieldNamedAt(fields[1..], i - 1);
    }
  }

  lemma {:induction false} NoDottedField(fields: seq<Field>, key: string)
    requires '.' in key && forall i :: 0 <= i < |fields| ==> PlainKey(fields[i].key)
    ensures FieldNamed(fields, key) == None
  {
    if fields != [] {
      PlainIsTrimmed(fields[0].key);
      assert forall i :: 0 <= i < |fields| - 1 ==> fields[1..][i] == fields[i + 1];
      NoDottedField(fields[1..], key);
    }
  }

  lemma {:induction false} CollectorHasDot(key: string)
    requires HasPrefix(key, COLLECTORS + ".")
    ensures '.' in key
  {
    var prefix := COLLECTORS + ".";
    assert key[|COLLECTORS|] == key[..|prefix|][|COLLECTORS|] == prefix[|COLLECTORS|] == '.';
  }

  lemma {:induction false} PlainIsNoCollector(section: string, key: string)
    requires '.' !in key
    ensures !IsCollector(section, key)
  {
    if HasPrefix(key, COLLECTORS + ".") { CollectorHasDot(key); }
  }

  predicate WellFormed(cfg: Config, schema: seq<Section>) {
    && -MAX_INT - 1 <= cfg.version <= MAX_INT
    && forall j, i :: 0 <= j < |schema| && 0 <= i < |schema[j].fields| ==>
         var k := (schema[j].name, schema[j].fields[i].key);
         k in cfg.values && Fits(schema[j].fields[i].kind, cfg.values[k])
  }

  // ---------- the fields of one section ----------

  function TextAt(codec: Codec, cfg: Config, s: Section, i: nat): string
    requires i < |s.fields|
  {
    ValueText(codec, ValueOf(cfg, s.name, s.fields[i]))
  }

  /** None of the first `n` texts swallows what follows. */
  predicate Open(codec: Codec, cfg: Config, s: Section, n: nat)
    requires n <= |s.fields|
  {
    forall i :: 0 <= i < n ==> !Swallows(TextAt(codec, cfg, s, i))
  }

  /** What reading the first `n` fields makes of `base`. */
  function FieldsRead(codec: Codec, cfg: Config, base: Config, s: Section, n: nat): Config
    requires n <= |s.fields|
  {
    if n == 0 then base
    else
      var before, f := FieldsRead(codec, cfg, base, s, n - 1), s.fields[n - 1];
      if Open(codec, cfg, s, n) then
        before.(values := before.values[(s.name, f.key) := Reread(f.kind, ValueOf(cfg, s.name, f))])
      else before
  }

  lemma {:induction false} ReadOpenField(schema: seq<Section>, codec: Codec, cfg: Config, r: Reader, j: nat, i: nat)
    requires GoodSchema(schema) && Readable(codec, cfg) && WellFormed(cfg, schema)
    requires j < |schema| && i < |schema[j].fields|
    requires r.section == schema[j].name && r.subsection == "" && !Swallows(TextAt(codec, cfg, schema[j], i))
    ensures var s, f := schema[j], schema[j].fields[i];
            ReadLine(schema, codec, r, FieldLine(f.key, TextAt(codec, cfg, s, i))) ==
              Some(r.(cfg := r.cfg.(values :=
                  r.cfg.values[(s.name, f.key) := Reread(f.kind, ValueOf(cfg, s.name, f))])))
  {
    var s, f := schema[j], schema[j].fields[i];
    assert GoodSection(s) && PlainKey(f.key);
    var v := ValueOf(cfg, s.name, f);
    assert (s.name, f.key) in cfg.values && Fits(f.kind, v);
    ReadField(schema, codec, r, f.key, ValueText(codec, v));
    PlainIsTrimmed(f.key);
    PlainIsNoCollector(s.name, f.key);
    FieldsOfSection(schema, j);
    FieldNamedAt(s.fields, i);
    ValueBack(codec, f.kind, v);
  }

  lemma {:induction false} ReadShutField(schema: seq<Section>, codec: Codec, r: Reader, j: nat, i: nat, text: string)
    requires GoodSchema(schema) && j < |schema| && i < |schema[j].fields|
    requires r.section == schema[j].name != TELEMETRY && r.subsection != ""
    ensures var q := ReadLine(schema, codec, r, FieldLine(schema[j].fields[i].key, text));
            q.Some? && q.value.subsection != "" && q.value == r.(subsection := q.value.subsection)
  {
    var s, key := schema[j], schema[j].fields[i].key;
    assert GoodSection(s) && PlainKey(key);
    if Swallows(text) {
      ReadSwallowed(schema, codec, r, key, text);
    } else {
      ReadField(schema, codec, r, key, text);
      var dotted := Qualified(r.subsection, key);
      assert dotted[|r.subsection|] == '.';
      FieldsOfSection(schema, j);
      NoDottedField(s.fields, dotted);
    }
  }

  lemma {:induction false} OpenOneMore(codec: Codec, cfg: Config, s: Section, n: nat)
    requires n < |s.fields|
    ensures Open(codec, cfg, s, n + 1) <==> Open(codec, cfg, s, n) && !Swallows(TextAt(codec, cfg, s, n))
  {}

  lemma {:induction false} TelemetryStaysOpen(codec: Codec, cfg: Config, schema: seq<Section>, j: nat, n: nat)
    requires GoodSchema(schema) && Readable(codec, cfg) && WellFormed(cfg, schema)
    requires j < |schema| && schema[j].name == TELEMETRY && n <= |schema[j].fields|
    ensures Open(codec, cfg, schema[j], n)
  {
    forall i | 0 <= i < n ensures !Swallows(TextAt(codec, cfg, schema[j], i)) {
      assert GoodSection(schema[j]) && (schema[j].name, schema[j].fields[i].key) in cfg.values;
      ValueBack(codec, Span, ValueOf(cfg, schema[j].name, schema[j].fields[i]));
    }
  }

  /** A reader in the middle of a section: the fields read so far, and whether one has swallowed the rest. */
  predicate InSection(r: Reader, codec: Codec, cfg: Config, base: Config, s: Section, n: nat)
    requires n <= |s.fields|
  {
    r.section == s.name && (r.subsection == "" <==> Open(codec, cfg, s, n))
        && r.cfg == FieldsRead(codec, cfg, base, s, n)
  }

  lemma {:induction false} ReadNextField(schema: seq<Section>, codec: Codec, cfg: Config, base: Config, j: nat,
                                         n: nat, r: Reader)
    requires GoodSchema(schema) && Readable(codec, cfg) && WellFormed(cfg, schema)
    requires j < |schema| && n < |schema[j].fields| && InSection(r, codec, cfg, base, schema[j], n)
    ensures var q := ReadLine(schema, codec, r, FieldLine(schema[j].fields[n].key, TextAt(codec, cfg, schema[j], n)));
            q.Some? && InSection(q.value, codec, cfg, base, schema[j], n + 1)
  {
    var s := schema[j];
    var text := TextAt(codec, cfg, s, n);
    OpenOneMore(codec, cfg, s, n);
    if r.subsection != "" {
      if s.name == TELEMETRY { TelemetryStaysOpen(codec, cfg, schema, j, n); }
      ReadShutField(schema, codec, r, j, n, text);
    } else if Swallows(text) {
      assert GoodSection(s) && PlainKey(s.fields[n].key);
      ReadSwallowed(schema, codec, r, s.fields[n].key, text);
    } else {
      ReadOpenField(schema, codec, cfg, r, j, n);
    }
  }

  lemma {:induction false} ReadFields(schema: seq<Section>, codec: Codec, cfg: Config, base: Config, j: nat, n: nat)
    requires GoodSchema(schema) && Readable(codec, cfg) && WellFormed(cfg, schema)
    requires j < |schema| && n <= |schema[j].fields|
    ensures var s := schema[j];
            var q := ReadLines(schema, codec, Reader(s.name, "", base), FieldLines(codec, cfg, s.name, s.fields)[..n]);
            q.Some? && InSection(q.value, codec, cfg, base, s, n)
    decreases n
  {
    var s := schema[j];
    var lines := FieldLines(codec, cfg, s.name, s.fields);
    if n == 0 {
      assert lines[..0] == [];
    } else {
      ReadFields(schema, codec, cfg, base, j, n - 1);
      var start := Reader(s.name, "", base);
      var r := ReadLines(schema, codec, start, lines[..n - 1]).value;
      ReadsOn(schema, codec, start, lines, n - 1, r);
      assert lines[n - 1] == FieldLine(s.fields[n - 1].key, TextAt(codec, cfg, s, n - 1));
      ReadNextField(schema, codec, cfg, base, j, n - 1, r);
    }
  }

  // ---------- collectors ----------

  /** A name that is read back as it is. */
  predicate CleanName(name: string) {
    TrimSpace(name) == name && ':' !in name && (name != "" ==> name[0] != '#')
  }

  lemma {:induction false} CollectorLineTrimmed(name: string, on: bool)
    ensures TrimSpace(CollectorLine(name, on)) == TrimLeft(name) + ": " + BoolText(on)
  {
    var tail := ": " + BoolText(on);
    BoolBack(on);
    assert CollectorLine(name, on) == "    " + (name + tail);
    TrimLeftSpaces("    ", name + tail);
    TrimLeftConcat(name, tail);
    var line := TrimLeft(name) + tail;
    assert TrimLeft(name) == "" ==> line == tail;
    assert TrimLeft(name + tail) == line;
    assert line[|line| - 1] == BoolText(on)[|BoolText(on)| - 1];
  }

  lemma {:induction false} SomeColon(a: string, b: string)
    ensures ColonAt(a + ":" + b).Some? && ColonAt(a + ":" + b).value <= |a|
    ensures ':' !in (a + ":" + b)[..ColonAt(a + ":" + b).value]
  {
    var s := a + ":" + b;
    if a != "" && a[0] != ':' {
      assert s[1..] == a[1..] + ":" + b;
      SomeColon(a[1..], b);
      var i := ColonAt(s[1..]).value;
      assert s[..i + 1] == [s[0]] + s[1..][..i];
    }
  }

  lemma {:induction false} TrimmedIsClean(s: string)
    requires ':' !in s && (s != "" ==> !IsSpace(s[0]) && s[0] != '#')
    ensures CleanName(TrimSpace(s))
  {
    TrimRightPrefix(s);
    var t := TrimRight(s);
    assert t == s[..|t|];
    assert t != "" ==> t[0] == s[0];
  }

  predicate SetsCollector(before: Reader, after: Option<Reader>, k: string, on: bool) {
    after == Some(before.(cfg := before.cfg.(collectors := before.cfg.collectors[k := on])))
  }

  lemma {:induction false} CollectorLineParts(name: string, on: bool)
    requires (TrimLeft(name) + ":")[0] != '#'
    ensures var head, line := TrimLeft(name), TrimLeft(name) + ":" + (" " + BoolText(on));
            && TrimSpace(CollectorLine(name, on)) == line && line != "" && line[0] != '#' && !EndsInColon(line)
            && ColonAt(line).Some? && ColonAt(line).value <= |head| && ':' !in line[..ColonAt(line).value]
  {
    var head, tail := TrimLeft(name), " " + BoolText(on);
    var line := head + ":" + tail;
    CollectorLineTrimmed(name, on);
    BoolBack(on);
    assert head + ": " + BoolText(on) == line;
    assert line[|line| - 1] == BoolText(on)[|BoolText(on)| - 1] != ':';
    assert line[0] == (head + ":")[0];
    SomeColon(head, tail);
  }

  lemma {:induction false} ReadPair(schema: seq<Section>, codec: Codec, r: Reader, raw: string, line: string, i: nat)
    requires r.section == TELEMETRY && r.subsection == COLLECTORS
    requires TrimSpace(raw) == line && line != "" && line[0] != '#' && !EndsInColon(line) && ColonAt(line) == Some(i)
    ensures SetsCollector(r, ReadLine(schema, codec, r, raw), TrimSpace(line[..i]),
                          ReadBool(TrimQuotes(TrimSpace(line[i + 1..]))))
  {
    CollectorSet(schema, codec, r.cfg, TrimSpace(line[..i]), TrimQuotes(TrimSpace(line[i + 1..])));
  }

  /** How a collector line that is no comment is read. */
  lemma {:induction false} ReadCollectorLine(schema: seq<Section>, codec: Codec, r: Reader, name: string, on: bool)
    requires r.section == TELEMETRY && r.subsection == COLLECTORS && (TrimLeft(name) + ":")[0] != '#'
    ensures var line := TrimLeft(name) + ":" + (" " + BoolText(on));
            var i := ColonAt(line);
            && i.Some? && i.value <= |TrimLeft(name)| && ':' !in line[..i.value]
            && SetsCollector(r, ReadLine(schema, codec, r, CollectorLine(name, on)), TrimSpace(line[..i.value]),
                             ReadBool(TrimQuotes(TrimSpace(line[i.value + 1..]))))
  {
    CollectorLineParts(name, on);
    var line := TrimLeft(name) + ":" + (" " + BoolText(on));
    ReadPair(schema, codec, r, CollectorLine(name, on), line, ColonAt(line).value);
  }

  lemma {:induction false} ReadComment(schema: seq<Section>, codec: Codec, r: Reader, name: string, on: bool)
    requires (TrimLeft(name) + ":")[0] == '#'
    ensures ReadLine(schema, codec, r, CollectorLine(name, on)) == Some(r)
  {
    CollectorLineTrimmed(name, on);
    assert TrimSpace(CollectorLine(name, on))[0] == (TrimLeft(name) + ":")[0];
  }

  /** A collector line sets at most one collector, and that of a clean name. */
  lemma {:induction false} ReadAnyCollector(schema: seq<Section>, codec: Codec, r: Reader, name: string, on: bool)
    requires r.section == TELEMETRY && r.subsection == COLLECTORS
    ensures var q := ReadLine(schema, codec, r, CollectorLine(name, on));
            q == Some(r) || exists k, b :: CleanName(k) && SetsCollector(r, q, k, b)
  {
    if (TrimLeft(name) + ":")[0] == '#' {
      ReadComment(schema, codec, r, name, on);
    } else {
      ReadCollectorLine(schema, codec, r, name, on);
      var head := TrimLeft(name);
      var line := head + ":" + (" " + BoolText(on));
      var i := ColonAt(line).value;
      TrimLeftStarts(name);
      assert i > 0 ==> line[..i][0] == head[0];
      TrimmedIsClean(line[..i]);
    }
  }

  /** A clean name is read back. */
  lemma {:induction false} ReadCleanCollector(schema: seq<Section>, codec: Codec, r: Reader, name: string, on: bool)
    requires r.section == TELEMETRY && r.subsection == COLLECTORS && CleanName(name)
    ensures SetsCollector(r, ReadLine(schema, codec, r, CollectorLine(name, on)), name, on)
  {
    CleanIsWhole(name);
    ReadCollectorLine(schema, codec, r, name, on);
    var tail := " " + BoolText(on);
    FirstColon(name, tail);
    var line := name + ":" + tail;
    assert line[..|name|] == name && line[|name| + 1..] == tail;
    TrimLeftSpaces(" ", BoolText(on));
    BoolBack(on);
    SolidStays(BoolText(on));
  }

  lemma {:induction false} CleanIsWhole(name: string)
    requires CleanName(name)
    ensures TrimLeft(name) == name && (name + ":")[0] != '#'
  {
    TrimRightPrefix(TrimLeft(name));
    TrimLeftConcat(name, "");
    if name != "" && IsSpace(name[0]) { SpacedIsShorter(name); }
  }

  lemma {:induction false} SpacedIsShorter(name: string)
    requires name != "" && IsSpace(name[0])
    ensures |TrimSpace(name)| < |name|
  {
    ShorterLeft(name);
    TrimRightPrefix(TrimLeft(name));
  }

  lemma {:induction false} ShorterLeft(s: string)
    ensures |TrimLeft(s)| <= |s| && (s != "" && IsSpace(s[0]) ==> |TrimLeft(s)| < |s|)
  {
    if s != "" { ShorterLeft(s[1..]); }
  }

  lemma {:induction false} CollectorSet(schema: seq<Section>, codec: Codec, cfg: Config, key: string, value: string)
    ensures SetValue(schema, codec, cfg, TELEMETRY, Qualified(COLLECTORS, key), value)
            == Some(cfg.(collectors := cfg.collectors[key := ReadBool(value)]))
  {
    var dotted := Qualified(COLLECTORS, key);
    assert dotted == (COLLECTORS + ".") + key;
    assert dotted[..|COLLECTORS| + 1] == COLLECTORS + "." && dotted[|COLLECTORS| + 1..] == key;
  }

  predicate AllClean(names: seq<string>) {
    forall i :: 0 <= i < |names| ==> CleanName(names[i])
  }

  /** What reading the collectors makes of those that were there. */
  ghost predicate CollectorsRead(after: map<string, bool>, before: map<string, bool>, collectors: map<string, bool>,
                                 names: seq<string>)
    requires forall i :: 0 <= i < |names| ==> names[i] in collectors
  {
    && (forall k :: k in after ==> k in before || CleanName(k))
    && (AllClean(names) ==>
          && (forall k :: k in after <==> k in before || k in names)
          && (forall k :: k in after ==> after[k] == if k in names then collectors[k] else before[k]))
  }

  lemma {:induction false} OneMoreCollector(after: map<string, bool>, before: map<string, bool>,
                                            start: map<string, bool>,
                                            collectors: map<string, bool>, names: seq<string>, name: string, k: string,
                                                on: bool)
    requires name in collectors && forall i :: 0 <= i < |names| ==> names[i] in collectors
    requires CollectorsRead(before, start, collectors, names)
    requires after == before || (CleanName(k) && after == before[k := on])
    requires CleanName(name) ==> after == before[name := collectors[name]]
    ensures CollectorsRead(after, start, collectors, names + [name])
  {
    var more := names + [name];
    if AllClean(more) {
      assert CleanName(more[|names|]);
      assert forall i :: 0 <= i < |names| ==> CleanName(more[i]) && more[i] == names[i];
      assert forall k :: k in more <==> k in names || k == name;
    }
  }

  /** The reader after the collectors `names`, when it was `r` before them. */
  ghost predicate AmongCollectors(q: Option<Reader>, r: Reader, collectors: map<string, bool>, names: seq<string>)
    requires forall i :: 0 <= i < |names| ==> names[i] in collectors
  {
    && q.Some? && q.value == r.(cfg := r.cfg.(collectors := q.value.cfg.collectors))
    && CollectorsRead(q.value.cfg.collectors, r.cfg.collectors, collectors, names)
  }

  lemma {:induction false} ReadOneCollector(schema: seq<Section>, codec: Codec, q: Reader, r: Reader,
                                            collectors: map<string, bool>,
                                            names: seq<string>, name: string)
    requires r.section == TELEMETRY && r.subsection == COLLECTORS
    requires name in collectors && forall i :: 0 <= i < |names| ==> names[i] in collectors
    requires AmongCollectors(Some(q), r, collectors, names)
    ensures AmongCollectors(ReadLine(schema, codec, q, CollectorLine(name, collectors[name])), r, collectors,
            names + [name])
  {
    var next := ReadLine(schema, codec, q, CollectorLine(name, collectors[name]));
    ReadAnyCollector(schema, codec, q, name, collectors[name]);
    if CleanName(name) { ReadCleanCollector(schema, codec, q, name, collectors[name]); }
    if next == Some(q) {
      OneMoreCollector(q.cfg.collectors, q.cfg.collectors, r.cfg.collectors, collectors, names, name, "", false);
    } else {
      var k, on :| CleanName(k) && SetsCollector(q, next, k, on);
      OneMoreCollector(next.value.cfg.collectors, q.cfg.collectors, r.cfg.collectors, collectors, names, name, k, on);
    }
  }

  lemma {:induction false} ReadCollectorAfter(schema: seq<Section>, codec: Codec, r: Reader, lines: seq<string>,
                                              collectors: map<string, bool>,
                                              names: seq<string>, name: string)
    requires r.section == TELEMETRY && r.subsection == COLLECTORS
    requires name in collectors && forall i :: 0 <= i < |names| ==> names[i] in collectors
    requires AmongCollectors(ReadLines(schema, codec, r, lines), r, collectors, names)
    ensures AmongCollectors(ReadLines(schema, codec, r, lines + [CollectorLine(name, collectors[name])]), r, collectors,
            names + [name])
  {
    ReadOneCollector(schema, codec, ReadLines(schema, codec, r, lines).value, r, collectors, names, name);
    ReadSnoc(schema, codec, r, lines, CollectorLine(name, collectors[name]));
  }

  lemma {:induction false} OneMoreEntry(collectors: map<string, bool>, names: seq<string>, name: string)
    requires name in collectors && forall i :: 0 <= i < |names| ==> names[i] in collectors
    ensures CollectorEntries(collectors, names + [name])
            == CollectorEntries(collectors, names) + [CollectorLine(name, collectors[name])]
  {}

  lemma {:induction false} ReadCollectors(schema: seq<Section>, codec: Codec, r: Reader,
                                          collectors: map<string, bool>, names: seq<string>)
    requires r.section == TELEMETRY && r.subsection == COLLECTORS
    requires forall i :: 0 <= i < |names| ==> names[i] in collectors
    ensures AmongCollectors(ReadLines(schema, codec, r, CollectorEntries(collectors, names)), r, collectors, names)
    decreases |names|
  {
    if names == [] {
      assert CollectorEntries(collectors, names) == [];
      assert ReadLines(schema, codec, r, []) == Some(r);
    } else {
      var front, name := names[..|names| - 1], names[|names| - 1];
      assert names == front + [name];
      ReadCollectors(schema, codec, r, collectors, front);
      OneMoreEntry(collectors, front, name);
      ReadCollectorAfter(schema, codec, r, CollectorEntries(collectors, front), collectors, front, name);
    }
  }

  lemma {:induction false} ReadSnoc(schema: seq<Section>, codec: Codec, r: Reader, lines: seq<string>, line: string)
    requires ReadLines(schema, codec, r, lines).Some?
    ensures ReadLines(schema, codec, r, lines + [line])
            == ReadLine(schema, codec, ReadLines(schema, codec, r, lines).value, line)
  {
    assert (lines + [line])[..|lines|] == lines;
  }

  // ---------- whole files ----------

  lemma {:induction false} ReadConcat(schema: seq<Section>, codec: Codec, r: Reader, a: seq<string>, b: seq<string>)
    requires ReadLines(schema, codec, r, a).Some?
    ensures ReadLines(schema, codec, r, a + b) == ReadLines(schema, codec, ReadLines(schema, codec, r, a).value, b)
    decreases |b|
  {
    if b == [] {
      assert a + b == a;
    } else {
      ReadConcat(schema, codec, r, a, b[..|b| - 1]);
      assert (a + b)[..|a + b| - 1] == a + b[..|b| - 1];
    }
  }

  lemma {:induction false} ReadOne(schema: seq<Section>, codec: Codec, r: Reader, line: string)
    ensures ReadLines(schema, codec, r, [line]) == ReadLine(schema, codec, r, line)
  {
    assert [line][..0] == [];
    assert ReadLines(schema, codec, r, [line][..0]) == Some(r);
  }

  lemma {:induction false} ReadCollectorHeader(schema: seq<Section>, codec: Codec, r: Reader)
    ensures ReadLine(schema, codec, r, "  " + COLLECTORS + ":") == Some(r.(subsection := COLLECTORS))
  {
    var raw := "  " + COLLECTORS + ":";
    assert raw == "  " + (COLLECTORS + ":");
    TrimLeftSpaces("  ", COLLECTORS + ":");
    assert (COLLECTORS + ":")[0] == 'c';
    assert TrimSpace(raw) == COLLECTORS + ":";
    assert (COLLECTORS + ":")[..|COLLECTORS|] == COLLECTORS;
  }

  lemma {:induction false} ReadSection(schema: seq<Section>, codec: Codec, cfg: Config, r: Reader, j: nat,
                                       names: seq<string>)
    requires GoodSchema(schema) && Readable(codec, cfg) && WellFormed(cfg, schema) && j < |schema|
    requires forall i :: 0 <= i < |names| ==> names[i] in cfg.collectors
    ensures var s := schema[j];
            var q := ReadLines(schema, codec, r, SectionLines(codec, cfg, s, names));
            && q.Some? && q.value.cfg.(collectors := r.cfg.collectors) == FieldsRead(codec, cfg, r.cfg, s, |s.fields|)
            && (s.name != TELEMETRY ==> q.value.cfg.collectors == r.cfg.collectors)
            && (s.name == TELEMETRY ==> CollectorsRead(q.value.cfg.collectors, r.cfg.collectors, cfg.collectors, names))
  {
    var s := schema[j];
    var header, fields := [s.name + ":"], FieldLines(codec, cfg, s.name, s.fields);
    assert GoodSection(s);
    ReadOne(schema, codec, r, s.name + ":");
    ReadHeader(schema, codec, r, s.name);
    ReadConcat(schema, codec, r, header, fields);
    assert fields[..|s.fields|] == fields;
    ReadFields(schema, codec, cfg, r.cfg, j, |s.fields|);
    FieldsReadKeepsRest(codec, cfg, r.cfg, s, |s.fields|);
    if s.name == TELEMETRY {
      var lines := CollectorLines(cfg.collectors, names);
      TelemetryStaysOpen(codec, cfg, schema, j, |s.fields|);
      ReadConcat(schema, codec, r, header + fields, lines);
      var q := ReadLines(schema, codec, r, header + fields).value;
      ReadOne(schema, codec, q, lines[0]);
      ReadCollectorHeader(schema, codec, q);
      assert lines == [lines[0]] + lines[1..];
      ReadConcat(schema, codec, q, [lines[0]], lines[1..]);
      assert lines[1..] == CollectorEntries(cfg.collectors, names);
      ReadCollectors(schema, codec, q.(subsection := COLLECTORS), cfg.collectors, names);
    } else {
      assert header + fields + [] == header + fields;
    }
  }

  lemma {:induction false} FieldsReadKeepsRest(codec: Codec, cfg: Config, base: Config, s: Section, n: nat)
    requires n <= |s.fields|
    ensures FieldsRead(codec, cfg, base, s, n).(values := base.values) == base
  {
    if n > 0 { FieldsReadKeepsRest(codec, cfg, base, s, n - 1); }
  }

  /** What a field is after the file has been read back: its own value, trimmed, or the default. */
  function Expected(codec: Codec, cfg: Config, s: Section, i: nat): Value
    requires i < |s.fields|
  {
    if Open(codec, cfg, s, i + 1) then Reread(s.fields[i].kind, ValueOf(cfg, s.name, s.fields[i]))
    else s.fields[i].default
  }

  /** The values of one section's fields after the first `n` were read, and those of the others. */
  predicate SectionValues(after: map<(string, string), Value>, base: map<(string, string), Value>, codec: Codec,
                          cfg: Config, s: Section, n: nat) {
    && after.Keys == base.Keys
    && (forall i :: 0 <= i < |s.fields| ==>
          (s.name, s.fields[i].key) in after
          && after[(s.name, s.fields[i].key)] == if i < n then Expected(codec, cfg, s, i) else s.fields[i].default)
    && (forall k :: k in after && k.0 != s.name ==> after[k] == base[k])
  }

  lemma {:induction false} OneMoreField(after: map<(string, string), Value>, base: map<(string, string), Value>,
                                        codec: Codec, cfg: Config, s: Section, n: nat)
    requires n < |s.fields| && DistinctKeys(s.fields) && SectionValues(after, base, codec, cfg, s, n)
    ensures SectionValues(after[(s.name, s.fields[n].key) := Expected(codec, cfg, s, n)], base, codec, cfg, s, n + 1)
  {}

  lemma {:induction false} FieldsReadValues(codec: Codec, cfg: Config, base: Config, s: Section, n: nat)
    requires n <= |s.fields| && DistinctKeys(s.fields) && SectionValues(base.values, base.values, codec, cfg, s, 0)
    ensures SectionValues(FieldsRead(codec, cfg, base, s, n).values, base.values, codec, cfg, s, n)
  {
    if n > 0 {
      FieldsReadValues(codec, cfg, base, s, n - 1);
      var before := FieldsRead(codec, cfg, base, s, n - 1).values;
      OneMoreField(before, base.values, codec, cfg, s, n - 1);
      assert before[(s.name, s.fields[n - 1].key) := s.fields[n - 1].default] == before;
    }
  }

  /** After the first `m` sections: their fields are as expected, and the rest as by default. */
  predicate ValuesAfter(values: map<(string, string), Value>, codec: Codec, cfg: Config, schema: seq<Section>, m: nat) {
    && values.Keys == KeysOf(schema)
    && forall j, i :: 0 <= j < |schema| && 0 <= i < |schema[j].fields| ==>
         values[(schema[j].name, schema[j].fields[i].key)] ==
           if j < m then Expected(codec, cfg, schema[j], i) else schema[j].fields[i].default
  }

  lemma {:induction false} DefaultValues(codec: Codec, cfg: Config, schema: seq<Section>)
    requires GoodSchema(schema)
    ensures ValuesAfter(Default(schema).values, codec, cfg, schema, 0)
  {
    forall j, i | 0 <= j < |schema| && 0 <= i < |schema[j].fields|
      ensures var k := (schema[j].name, schema[j].fields[i].key);
              k in KeysOf(schema) && DefaultAt(schema, k) == schema[j].fields[i].default
    {
      assert GoodSection(schema[j]);
      FieldsOfSection(schema, j);
      FieldNamedAt(schema[j].fields, i);
    }
  }

  lemma {:induction false} TopLineParts(key: string, text: string)
    requires PlainKey(key) && Solid(text)
    ensures var raw := key + ": " + text;
            && TrimSpace(raw) == raw && raw[0] != '#' && !EndsInColon(raw) && ColonAt(raw) == Some(|key|)
            && TrimSpace(raw[..|key|]) == key && TrimQuotes(TrimSpace(raw[|key| + 1..])) == text
  {
    var raw, tail := key + ": " + text, " " + text;
    assert raw == key + ":" + tail;
    FirstColon(key, tail);
    TopLineEnds(key, text, raw);
    assert raw[..|key|] == key && raw[|key| + 1..] == tail;
    PlainIsTrimmed(key);
    TopValue(text);
  }

  lemma {:induction false} TopLineEnds(key: string, text: string, raw: string)
    requires PlainKey(key) && Solid(text) && raw == key + ": " + text
    ensures TrimSpace(raw) == raw && raw[0] != '#' && !EndsInColon(raw)
  {
    assert raw[0] == key[0] && KeyChar(raw[0]) && raw[|raw| - 1] == text[|text| - 1];
  }

  lemma {:induction false} TopValue(text: string)
    requires Solid(text)
    ensures TrimQuotes(TrimSpace(" " + text)) == text
  {
    SolidStays(text);
    TrimLeftSpaces(" ", text);
  }

  /** A line at the top of the file, before any section. */
  lemma {:induction false} ReadTop(schema: seq<Section>, codec: Codec, base: Config, key: string, text: string)
    requires PlainKey(key) && Solid(text)
    ensures ReadLine(schema, codec, Reader("", "", base), key + ": " + text) ==
              match SetValue(schema, codec, base, "", key, text)
              case None => None
              case Some(cfg) => Some(Reader("", "", cfg))
  {
    TopLineParts(key, text);
  }

  lemma {:induction false} ReadVersion(schema: seq<Section>, codec: Codec, base: Config, version: int)
    requires -MAX_INT - 1 <= version <= MAX_INT
    ensures ReadLine(schema, codec, Reader("", "", base), VERSION + ": " + Shown(version))
            == Some(Reader("", "", base.(version := version)))
  {
    NumberIsSolid(version);
    IntegerBack(version);
    ReadTop(schema, codec, base, VERSION, Shown(version));
  }

  predicate HasTelemetry(schema: seq<Section>, m: nat) {
    exists j :: 0 <= j < m && j < |schema| && schema[j].name == TELEMETRY
  }

  /** The configuration read after the first `m` sections. */
  ghost predicate ReadUpTo(q: Config, codec: Codec, cfg: Config, schema: seq<Section>, names: seq<string>, m: nat)
    requires forall i :: 0 <= i < |names| ==> names[i] in cfg.collectors
  {
    && q.version == cfg.version && ValuesAfter(q.values, codec, cfg, schema, m)
    && if HasTelemetry(schema, m) then CollectorsRead(q.collectors, DEFAULT_COLLECTORS, cfg.collectors, names)
       else q.collectors == DEFAULT_COLLECTORS
  }

  lemma {:induction false} NextSection(q: Config, r: Config, schema: seq<Section>, codec: Codec, cfg: Config,
                                       names: seq<string>, m: nat)
    requires GoodSchema(schema) && 0 < m <= |schema|
    requires forall i :: 0 <= i < |names| ==> names[i] in cfg.collectors
    requires ReadUpTo(r, codec, cfg, schema, names, m - 1)
    requires q.(collectors := r.collectors) == FieldsRead(codec, cfg, r, schema[m - 1], |schema[m - 1].fields|)
    requires schema[m - 1].name != TELEMETRY ==> q.collectors == r.collectors
    requires schema[m - 1].name == TELEMETRY ==> CollectorsRead(q.collectors, r.collectors, cfg.collectors, names)
    ensures ReadUpTo(q, codec, cfg, schema, names, m)
  {
    NextValues(schema, codec, cfg, r, m);
    OneTelemetry(schema, m);
    FieldsReadKeepsRest(codec, cfg, r, schema[m - 1], |schema[m - 1].fields|);
  }

  lemma {:induction false} ReadNextSection(schema: seq<Section>, codec: Codec, cfg: Config, names: seq<string>,
                                           m: nat, r: Reader)
    requires GoodSchema(schema) && Readable(codec, cfg) && WellFormed(cfg, schema) && 0 < m <= |schema|
    requires forall i :: 0 <= i < |names| ==> names[i] in cfg.collectors
    requires ReadUpTo(r.cfg, codec, cfg, schema, names, m - 1)
    ensures var q := ReadLines(schema, codec, r, SectionLines(codec, cfg, schema[m - 1], names));
            q.Some? && ReadUpTo(q.value.cfg, codec, cfg, schema, names, m)
  {
    ReadSection(schema, codec, cfg, r, m - 1, names);
    NextSection(ReadLines(schema, codec, r, SectionLines(codec, cfg, schema[m - 1], names)).value.cfg, r.cfg, schema,
        codec, cfg, names, m);
  }

  lemma {:induction false} ReadAll(schema: seq<Section>, codec: Codec, cfg: Config, names: seq<string>, m: nat)
    requires GoodSchema(schema) && Readable(codec, cfg) && WellFormed(cfg, schema) && m <= |schema|
    requires forall i :: 0 <= i < |names| ==> names[i] in cfg.collectors
    ensures var q := ReadLines(schema, codec, Reader("", "", Default(schema)), Lines(codec, cfg, schema[..m], names));
            q.Some? && ReadUpTo(q.value.cfg, codec, cfg, schema, names, m)
    decreases m
  {
    var start := Reader("", "", Default(schema));
    if m == 0 {
      DefaultValues(codec, cfg, schema);
      ReadOne(schema, codec, start, VERSION + ": " + Shown(cfg.version));
      ReadVersion(schema, codec, Default(schema), cfg.version);
    } else {
      ReadAll(schema, codec, cfg, names, m - 1);
      assert schema[..m][..m - 1] == schema[..m - 1] && schema[..m][m - 1] == schema[m - 1];
      var before := Lines(codec, cfg, schema[..m - 1], names);
      var r := ReadLines(schema, codec, start, before).value;
      ReadNextSection(schema, codec, cfg, names, m, r);
      ReadConcat(schema, codec, start, before, SectionLines(codec, cfg, schema[m - 1], names));
    }
  }

  lemma {:induction false} OneTelemetry(schema: seq<Section>, m: nat)
    requires DistinctNames(schema) && 0 < m <= |schema|
    ensures HasTelemetry(schema, m) <==> HasTelemetry(schema, m - 1) || schema[m - 1].name == TELEMETRY
    ensures schema[m - 1].name == TELEMETRY ==> !HasTelemetry(schema, m - 1)
  {}

  lemma {:induction false} KnownKey(schema: seq<Section>, j: nat, i: nat)
    requires j < |schema| && i < |schema[j].fields|
    ensures (schema[j].name, schema[j].fields[i].key) in KeysOf(schema)
  {}

  lemma {:induction false} NextValue(schema: seq<Section>, codec: Codec, cfg: Config,
                                     after: map<(string, string), Value>, base: map<(string, string), Value>,
                                     m: nat, j: nat, i: nat)
    requires DistinctNames(schema) && 0 < m <= |schema| && ValuesAfter(base, codec, cfg, schema, m - 1)
    requires SectionValues(after, base, codec, cfg, schema[m - 1], |schema[m - 1].fields|)
    requires j < |schema| && i < |schema[j].fields|
    ensures var k := (schema[j].name, schema[j].fields[i].key);
            k in after && after[k] == if j < m then Expected(codec, cfg, schema[j], i) else schema[j].fields[i].default
  {
    KnownKey(schema, j, i);
    assert j != m - 1 ==> schema[j].name != schema[m - 1].name;
  }

  lemma {:induction false} NextValues(schema: seq<Section>, codec: Codec, cfg: Config, base: Config, m: nat)
    requires GoodSchema(schema) && 0 < m <= |schema| && ValuesAfter(base.values, codec, cfg, schema, m - 1)
    ensures ValuesAfter(FieldsRead(codec, cfg, base, schema[m - 1], |schema[m - 1].fields|).values, codec, cfg, schema,
            m)
  {
    var s := schema[m - 1];
    assert GoodSection(s);
    forall i | 0 <= i < |s.fields| ensures (s.name, s.fields[i].key) in base.values { KnownKey(schema, m - 1, i); }
    FieldsReadValues(codec, cfg, base, s, |s.fields|);
    var after := FieldsRead(codec, cfg, base, s, |s.fields|).values;
    forall j, i | 0 <= j < |schema| && 0 <= i < |schema[j].fields|
      ensures after[(schema[j].name, schema[j].fields[i].key)] ==
                if j < m then Expected(codec, cfg, schema[j], i) else schema[j].fields[i].default
    {
      NextValue(schema, codec, cfg, after, base.values, m, j, i);
    }
  }
}

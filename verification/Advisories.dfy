/** Vulnerability reports: one record per package version, the worst first, at most five hundred. */
module Advisories {
  import opened Text

  datatype Vulnerability = Vulnerability(id: string, name: string, version: string, fixed: string, severity: string)

  datatype Package = Package(
    name: string, version: string, fixed: string, highest: string,
    critical: nat, high: nat, medium: nat, low: nat, ids: seq<string>)

  datatype Report = Report(total: nat, counts: map<string, nat>, packages: seq<Package>)

  const MAX_PACKAGES := 500
  const MAX_IDS := 8

  function Rank(severity: string): nat {
    if severity == "CRITICAL" then 5
    else if severity == "HIGH" then 4
    else if severity == "MEDIUM" then 3
    else if severity == "LOW" then 2
    else 1
  }

  function Severity(v: Vulnerability): string {
    ToUpper(v.severity)
  }

  function Key(v: Vulnerability): string {
    v.name + ['\0'] + v.version
  }

  function Flat(results: seq<seq<Vulnerability>>): seq<Vulnerability>
    decreases |results|
  {
    if results == [] then [] else Flat(results[..|results| - 1]) + results[|results| - 1]
  }

  // ---------- what a report says about the vulnerabilities ----------

  function CountAll(vs: seq<Vulnerability>, severity: string): nat
    decreases |vs|
  {
    if vs == [] then 0
    else CountAll(vs[..|vs| - 1], severity) + if Severity(vs[|vs| - 1]) == severity then 1 else 0
  }

  function CountOf(vs: seq<Vulnerability>, key: string, severity: string): nat
    decreases |vs|
  {
    if vs == [] then 0
    else
      var last := vs[|vs| - 1];
      CountOf(vs[..|vs| - 1], key, severity) + if Key(last) == key && Severity(last) == severity then 1 else 0
  }

  function CountIn(p: Package, severity: string): nat {
    if severity == "CRITICAL" then p.critical
    else if severity == "HIGH" then p.high
    else if severity == "MEDIUM" then p.medium
    else if severity == "LOW" then p.low
    else 0
  }

  predicate Counted(severity: string) {
    severity == "CRITICAL" || severity == "HIGH" || severity == "MEDIUM" || severity == "LOW"
  }

  /** The advisories of a package, those without an id left out. */
  function IdsOf(vs: seq<Vulnerability>, key: string): seq<string>
    decreases |vs|
  {
    if vs == [] then []
    else
      var last := vs[|vs| - 1];
      IdsOf(vs[..|vs| - 1], key) + if Key(last) == key && last.id != "" then [last.id] else []
  }

  /** The first version that fixes any of them, as the scanner lists them. */
  function FixOf(vs: seq<Vulnerability>, key: string): string
    decreases |vs|
  {
    if vs == [] then ""
    else
      var before, last := FixOf(vs[..|vs| - 1], key), vs[|vs| - 1];
      if before == "" && Key(last) == key then last.fixed else before
  }

  predicate Worst(highest: string, vs: seq<Vulnerability>, key: string) {
    && (exists i :: 0 <= i < |vs| && Key(vs[i]) == key && Severity(vs[i]) == highest)
    && (forall i :: 0 <= i < |vs| && Key(vs[i]) == key ==> Rank(Severity(vs[i])) <= Rank(highest))
  }

  predicate CountsRight(p: Package, vs: seq<Vulnerability>, key: string) {
    && p.critical == CountOf(vs, key, "CRITICAL") && p.high == CountOf(vs, key, "HIGH")
    && p.medium == CountOf(vs, key, "MEDIUM") && p.low == CountOf(vs, key, "LOW")
  }

  predicate Listed(name: string, version: string, vs: seq<Vulnerability>, key: string) {
    exists i :: 0 <= i < |vs| && Key(vs[i]) == key && vs[i].name == name && vs[i].version == version
  }

  function UpTo(ids: seq<string>): seq<string> {
    if |ids| < MAX_IDS then ids else ids[..MAX_IDS]
  }

  /** The record is right about everything listed under its key. */
  predicate Describes(p: Package, vs: seq<Vulnerability>, key: string) {
    && Listed(p.name, p.version, vs, key) && Worst(p.highest, vs, key) && CountsRight(p, vs, key)
    && p.fixed == FixOf(vs, key) && p.ids == UpTo(IdsOf(vs, key))
  }

  // ---------- one more vulnerability ----------

  function Opened(v: Vulnerability): Package {
    Package(v.name, v.version, v.fixed, Severity(v), 0, 0, 0, 0, [])
  }

  function Bumped(p: Package, severity: string): Package {
    if severity == "CRITICAL" then p.(critical := p.critical + 1)
    else if severity == "HIGH" then p.(high := p.high + 1)
    else if severity == "MEDIUM" then p.(medium := p.medium + 1)
    else if severity == "LOW" then p.(low := p.low + 1)
    else p
  }

  function Added(p: Package, v: Vulnerability): Package {
    var p := if p.fixed == "" then p.(fixed := v.fixed) else p;
    var p := if Rank(Severity(v)) > Rank(p.highest) then p.(highest := Severity(v)) else p;
    var p := Bumped(p, Severity(v));
    if |p.ids| < MAX_IDS && v.id != "" then p.(ids := p.ids + [v.id]) else p
  }

  lemma {:induction false} NothingOf(vs: seq<Vulnerability>, key: string, severity: string)
    requires forall i :: 0 <= i < |vs| ==> Key(vs[i]) != key
    ensures CountOf(vs, key, severity) == 0 && IdsOf(vs, key) == [] && FixOf(vs, key) == ""
    decreases |vs|
  {
    if vs != [] { NothingOf(vs[..|vs| - 1], key, severity); }
  }

  lemma {:induction false} OpenedDescribes(vs: seq<Vulnerability>, v: Vulnerability)
    requires forall i :: 0 <= i < |vs| ==> Key(vs[i]) != Key(v)
    ensures Describes(Added(Opened(v), v), vs + [v], Key(v))
  {
    var all, k, p := vs + [v], Key(v), Opened(v);
    assert all[|vs|] == v;
    AddedFields(p, v);
    assert Listed(v.name, v.version, all, k) && Worst(Severity(v), all, k);
    OpenedCounts(vs, v);
    TextsStayRight(vs, v, k);
    NothingOf(vs, k, "LOW");
  }

  lemma {:induction false} OpenedCounts(vs: seq<Vulnerability>, v: Vulnerability)
    requires forall i :: 0 <= i < |vs| ==> Key(vs[i]) != Key(v)
    ensures CountsRight(Bumped(Opened(v), Severity(v)), vs + [v], Key(v))
  {
    NothingOf(vs, Key(v), "CRITICAL");
    NothingOf(vs, Key(v), "HIGH");
    NothingOf(vs, Key(v), "MEDIUM");
    NothingOf(vs, Key(v), "LOW");
    CountsStayRight(Opened(v), vs, v, Key(v));
  }

  lemma {:induction false} WorstStays(highest: string, vs: seq<Vulnerability>, v: Vulnerability, key: string)
    requires Worst(highest, vs, key)
    ensures Key(v) == key ==> Worst(if Rank(Severity(v)) > Rank(highest) then Severity(v) else highest, vs + [v], key)
    ensures Key(v) != key ==> Worst(highest, vs + [v], key)
  {
    var all := vs + [v];
    assert all[|vs|] == v;
    var i :| 0 <= i < |vs| && Key(vs[i]) == key && Severity(vs[i]) == highest;
    assert all[i] == vs[i];
  }

  lemma {:induction false} ListedStays(name: string, version: string, vs: seq<Vulnerability>, v: Vulnerability,
                                       key: string)
    requires Listed(name, version, vs, key)
    ensures Listed(name, version, vs + [v], key)
  {
    var i :| 0 <= i < |vs| && Key(vs[i]) == key && vs[i].name == name && vs[i].version == version;
    assert (vs + [v])[i] == vs[i];
  }

  lemma {:induction false} CountMore(vs: seq<Vulnerability>, v: Vulnerability, key: string, severity: string)
    ensures CountOf(vs + [v], key, severity)
            == CountOf(vs, key, severity) + if Key(v) == key && Severity(v) == severity then 1 else 0
  {
    assert (vs + [v])[..|vs|] == vs;
  }

  lemma {:induction false} CountsStayRight(p: Package, vs: seq<Vulnerability>, v: Vulnerability, key: string)
    requires CountsRight(p, vs, key)
    ensures CountsRight(if Key(v) == key then Bumped(p, Severity(v)) else p, vs + [v], key)
  {
    CountMore(vs, v, key, "CRITICAL");
    CountMore(vs, v, key, "HIGH");
    CountMore(vs, v, key, "MEDIUM");
    CountMore(vs, v, key, "LOW");
  }

  lemma {:induction false} AddedFields(p: Package, v: Vulnerability)
    ensures var q, b := Added(p, v), Bumped(p, Severity(v));
            && q.critical == b.critical && q.high == b.high && q.medium == b.medium && q.low == b.low
            && q.name == p.name && q.version == p.version
            && q.highest == (if Rank(Severity(v)) > Rank(p.highest) then Severity(v) else p.highest)
            && q.fixed == (if p.fixed == "" then v.fixed else p.fixed)
            && q.ids == (if |p.ids| < MAX_IDS && v.id != "" then p.ids + [v.id] else p.ids)
  {}

  lemma {:induction false} TextsStayRight(vs: seq<Vulnerability>, v: Vulnerability, key: string)
    ensures var fix, ids, mine := FixOf(vs, key), UpTo(IdsOf(vs, key)), Key(v) == key;
            && FixOf(vs + [v], key) == (if mine && fix == "" then v.fixed else fix)
            && UpTo(IdsOf(vs + [v], key)) == (if mine && |ids| < MAX_IDS && v.id != "" then ids + [v.id] else ids)
  {
    assert (vs + [v])[..|vs|] == vs;
    var before := IdsOf(vs, key);
    if |before| >= MAX_IDS { assert (before + [v.id])[..MAX_IDS] == before[..MAX_IDS]; }
    else { assert |before| + 1 == MAX_IDS ==> (before + [v.id])[..MAX_IDS] == before + [v.id]; }
  }

  lemma {:induction false} AddedDescribes(p: Package, vs: seq<Vulnerability>, v: Vulnerability, key: string)
    requires Describes(p, vs, key)
    ensures Describes(if Key(v) == key then Added(p, v) else p, vs + [v], key)
  {
    AddedFields(p, v);
    WorstStays(p.highest, vs, v, key);
    ListedStays(p.name, p.version, vs, v, key);
    CountsStayRight(p, vs, v, key);
    TextsStayRight(vs, v, key);
  }

  // ---------- nothing is counted twice or lost ----------

  function SumIn(packages: seq<Package>, severity: string): nat
    decreases |packages|
  {
    if packages == [] then 0
    else SumIn(packages[..|packages| - 1], severity) + CountIn(packages[|packages| - 1], severity)
  }

  function SumOf(keys: seq<string>, vs: seq<Vulnerability>, severity: string): nat
    decreases |keys|
  {
    if keys == [] then 0
    else SumOf(keys[..|keys| - 1], vs, severity) + CountOf(vs, keys[|keys| - 1], severity)
  }

  predicate Distinct(keys: seq<string>) {
    forall i, j :: 0 <= i < j < |keys| ==> keys[i] != keys[j]
  }

  lemma {:induction false} SumMore(keys: seq<string>, vs: seq<Vulnerability>, v: Vulnerability, severity: string)
    requires Distinct(keys)
    ensures SumOf(keys, vs + [v], severity)
            == SumOf(keys, vs, severity) + if Key(v) in keys && Severity(v) == severity then 1 else 0
    decreases |keys|
  {
    if keys != [] {
      var n := |keys| - 1;
      SumMore(keys[..n], vs, v, severity);
      CountMore(vs, v, keys[n], severity);
      assert keys == keys[..n] + [keys[n]];
    }
  }

  lemma {:induction false} SumOfNone(keys: seq<string>, severity: string)
    ensures SumOf(keys, [], severity) == 0
    decreases |keys|
  {
    if keys != [] { SumOfNone(keys[..|keys| - 1], severity); }
  }

  /** Counting package by package gives the overall count. */
  lemma {:induction false} CountsAddUp(keys: seq<string>, vs: seq<Vulnerability>, severity: string)
    requires Distinct(keys) && forall i :: 0 <= i < |vs| ==> Key(vs[i]) in keys
    ensures SumOf(keys, vs, severity) == CountAll(vs, severity)
    decreases |vs|
  {
    if vs == [] {
      SumOfNone(keys, severity);
    } else {
      var n := |vs| - 1;
      CountsAddUp(keys, vs[..n], severity);
      SumMore(keys, vs[..n], vs[n], severity);
      assert vs == vs[..n] + [vs[n]];
    }
  }

  /** Each package is the record of one key, and the keys are all there are. */
  predicate RecordsOf(packages: seq<Package>, keys: seq<string>, vs: seq<Vulnerability>) {
    && |packages| == |keys| && Distinct(keys)
    && (forall i :: 0 <= i < |keys| ==> Describes(packages[i], vs, keys[i]))
    && (forall i :: 0 <= i < |vs| ==> Key(vs[i]) in keys)
  }

  lemma {:induction false} SumOfRecords(packages: seq<Package>, keys: seq<string>, vs: seq<Vulnerability>,
                                        severity: string)
    requires |packages| == |keys| && forall i :: 0 <= i < |keys| ==> CountsRight(packages[i], vs, keys[i])
    requires Counted(severity)
    ensures SumIn(packages, severity) == SumOf(keys, vs, severity)
    decreases |packages|
  {
    if packages != [] {
      var n := |packages| - 1;
      SumOfRecords(packages[..n], keys[..n], vs, severity);
      assert CountsRight(packages[n], vs, keys[n]);
    }
  }

  /** A key stands for one package version, unless a name contains a NUL. */
  lemma {:induction false} KeyIsNameAndVersion(v: Vulnerability, w: Vulnerability)
    requires Key(v) == Key(w) && '\0' !in v.name && '\0' !in w.name
    ensures v.name == w.name && v.version == w.version
  {
    var k := Key(v);
    assert k[|v.name|] == '\0' && k[|w.name|] == '\0';
    assert forall i :: 0 <= i < |v.name| ==> k[i] == v.name[i] && v.name[i] != '\0';
    assert forall i :: 0 <= i < |w.name| ==> k[i] == w.name[i] && w.name[i] != '\0';
    assert |v.name| == |w.name|;
    assert v.name == k[..|v.name|] && w.name == k[..|w.name|];
    assert v.version == k[|v.name| + 1..] && w.version == k[|w.name| + 1..];
  }

  // ---------- sorting ----------

  /** Byte order of names. */
  predicate Less(a: string, b: string) {
    b != [] && (a == [] || a[0] < b[0] || (a[0] == b[0] && Less(a[1..], b[1..])))
  }

  predicate Before(p: Package, q: Package) {
    if Rank(p.highest) != Rank(q.highest) then Rank(p.highest) > Rank(q.highest) else Less(p.name, q.name)
  }

  predicate InOrder(packages: seq<Package>) {
    forall i, j :: 0 <= i < j < |packages| ==> !Before(packages[j], packages[i])
  }

  lemma {:induction false} NotLessChain(a: string, b: string, c: string)
    requires !Less(a, b) && !Less(b, c)
    ensures !Less(a, c)
  {
    if a != [] && b != [] && c != [] && a[0] == b[0] == c[0] { NotLessChain(a[1..], b[1..], c[1..]); }
  }

  lemma {:induction false} NotBeforeChain(p: Package, q: Package, r: Package)
    requires !Before(p, q) && !Before(q, r)
    ensures !Before(p, r)
  {
    if Rank(p.highest) == Rank(q.highest) == Rank(r.highest) { NotLessChain(p.name, q.name, r.name); }
  }

  function RecordsAt(records: map<string, Package>, keys: seq<string>): seq<Package>
    requires forall i :: 0 <= i < |keys| ==> keys[i] in records
  {
    seq(|keys|, i requires 0 <= i < |keys| => records[keys[i]])
  }

  /** Where a record goes in a sorted list; records are named by their keys here. */
  function Placed(records: map<string, Package>, keys: seq<string>, k: string): (placed: seq<string>)
    requires k in records && forall i :: 0 <= i < |keys| ==> keys[i] in records
    ensures |placed| == |keys| + 1 && forall i :: 0 <= i < |placed| ==> placed[i] in keys || placed[i] == k
    decreases |keys|
  {
    if keys == [] then [k]
    else
      var n := |keys| - 1;
      if Before(records[k], records[keys[n]]) then Placed(records, keys[..n], k) + [keys[n]] else keys + [k]
  }

  lemma {:induction false} PlacedMembers(records: map<string, Package>, keys: seq<string>, k: string)
    requires k in records && k !in keys && Distinct(keys) && forall i :: 0 <= i < |keys| ==> keys[i] in records
    ensures Distinct(Placed(records, keys, k)) && k in Placed(records, keys, k)
    ensures forall x :: x in keys ==> x in Placed(records, keys, k)
    decreases |keys|
  {
    if keys != [] {
      var n := |keys| - 1;
      if Before(records[k], records[keys[n]]) { PlacedMembers(records, keys[..n], k); }
      assert keys == keys[..n] + [keys[n]];
    }
  }

  predicate KeysInOrder(records: map<string, Package>, keys: seq<string>)
    requires forall i :: 0 <= i < |keys| ==> keys[i] in records
  {
    forall i, j :: 0 <= i < j < |keys| ==> !Before(records[keys[j]], records[keys[i]])
  }

  lemma {:induction false} NotBeforeAny(records: map<string, Package>, keys: seq<string>, k: string, i: nat)
    requires k in records && i < |keys| && forall i :: 0 <= i < |keys| ==> keys[i] in records
    requires KeysInOrder(records, keys) && !Before(records[k], records[keys[|keys| - 1]])
    ensures !Before(records[k], records[keys[i]])
  {
    if i < |keys| - 1 { NotBeforeChain(records[k], records[keys[|keys| - 1]], records[keys[i]]); }
  }

  lemma {:induction false} PlacedInOrder(records: map<string, Package>, keys: seq<string>, k: string)
    requires k in records && forall i :: 0 <= i < |keys| ==> keys[i] in records
    requires KeysInOrder(records, keys)
    ensures KeysInOrder(records, Placed(records, keys, k))
    decreases |keys|
  {
    if keys != [] {
      var n := |keys| - 1;
      if Before(records[k], records[keys[n]]) {
        var front := Placed(records, keys[..n], k);
        PlacedInOrder(records, keys[..n], k);
        forall i | 0 <= i < |front| ensures !Before(records[keys[n]], records[front[i]]) {
          if front[i] in keys[..n] { var j :| 0 <= j < n && keys[j] == front[i]; }
          else { NeverBoth(records[k], records[keys[n]]); }
        }
      } else {
        forall i | 0 <= i < |keys| ensures !Before(records[k], records[keys[i]]) { NotBeforeAny(records, keys, k, i); }
      }
    }
  }

  lemma {:induction false} NeverBoth(p: Package, q: Package)
    requires Before(p, q)
    ensures !Before(q, p)
  {
    if Rank(p.highest) == Rank(q.highest) { NotLessBoth(p.name, q.name); }
  }

  lemma {:induction false} NotLessBoth(a: string, b: string)
    requires Less(a, b)
    ensures !Less(b, a)
  {
    if a != [] && b[0] == a[0] { NotLessBoth(a[1..], b[1..]); }
  }

  // ---------- the parser ----------

  predicate RecordsSeen(records: map<string, Package>, vs: seq<Vulnerability>) {
    (forall k :: k in records ==> Describes(records[k], vs, k)) && forall i :: 0 <= i < |vs| ==> Key(vs[i]) in records
  }

  predicate CountsSeen(counts: map<string, nat>, vs: seq<Vulnerability>) {
    && (forall s :: s in counts ==> counts[s] == CountAll(vs, s))
    && forall i :: 0 <= i < |vs| ==> Severity(vs[i]) in counts
  }

  lemma {:induction false} RecordsSeenOne(records: map<string, Package>, vs: seq<Vulnerability>, v: Vulnerability)
    requires RecordsSeen(records, vs)
    ensures RecordsSeen(records[Key(v) := Added(if Key(v) in records then records[Key(v)] else Opened(v), v)], vs + [v])
  {
    var k, all := Key(v), vs + [v];
    var more := records[k := Added(if k in records then records[k] else Opened(v), v)];
    forall x | x in more ensures Describes(more[x], all, x) {
      if x in records { AddedDescribes(records[x], vs, v, x); }
      else { OpenedDescribes(vs, v); }
    }
    forall i | 0 <= i < |all| ensures Key(all[i]) in more { if i < |vs| { assert all[i] == vs[i]; } }
  }

  lemma {:induction false} CountsSeenOne(counts: map<string, nat>, vs: seq<Vulnerability>, v: Vulnerability)
    requires CountsSeen(counts, vs)
    ensures CountsSeen(counts[Severity(v) := (if Severity(v) in counts then counts[Severity(v)] else 0) + 1], vs + [v])
  {
    var s, all := Severity(v), vs + [v];
    assert all[..|vs|] == vs && all[|vs|] == v;
    if s !in counts { NeverCounted(vs, s); }
    forall i | 0 <= i < |all| ensures Severity(all[i]) == s || Severity(all[i]) in counts {
      if i < |vs| { assert all[i] == vs[i]; }
    }
  }

  lemma {:induction false} NeverCounted(vs: seq<Vulnerability>, severity: string)
    requires forall i :: 0 <= i < |vs| ==> Severity(vs[i]) != severity
    ensures CountAll(vs, severity) == 0
    decreases |vs|
  {
    if vs != [] { NeverCounted(vs[..|vs| - 1], severity); }
  }

  /** `all` are the records before the cut, one for each of `keys`. */
  method Parse(results: seq<seq<Vulnerability>>) returns (report: Report, ghost all: seq<Package>,
               ghost keys: seq<string>)
    ensures report.total == |Flat(results)|
    ensures forall s :: (if s in report.counts then report.counts[s] else 0) == CountAll(Flat(results), s)
    ensures RecordsOf(all, keys, Flat(results)) && InOrder(all)
    ensures report.packages == if |all| > 500 then all[..500] else all
  {
    var total, counts, records := 0, map[], map[];
    for i := 0 to |results|
      invariant RecordsSeen(records, Flat(results[..i])) && CountsSeen(counts, Flat(results[..i]))
                && total == |Flat(results[..i])|
    {
      assert results[..i + 1][..i] == results[..i];
      total, counts, records := NoteAll(total, counts, records, results[i], Flat(results[..i]));
    }
    assert results[..|results|] == results;
    CountsComplete(counts, Flat(results));
    var listed := SortedKeys(records);
    keys := listed;
    var packages := RecordsAt(records, listed);
    all := packages;
    RecordsComplete(records, listed, Flat(results));
    if |packages| > MAX_PACKAGES { packages := packages[..MAX_PACKAGES]; }
    report := Report(total, counts, packages);
  }

  lemma {:induction false} CountsComplete(counts: map<string, nat>, vs: seq<Vulnerability>)
    requires CountsSeen(counts, vs)
    ensures forall s :: (if s in counts then counts[s] else 0) == CountAll(vs, s)
  {
    forall s | s !in counts ensures CountAll(vs, s) == 0 { NeverCounted(vs, s); }
  }

  lemma {:induction false} RecordsComplete(records: map<string, Package>, keys: seq<string>, vs: seq<Vulnerability>)
    requires RecordsSeen(records, vs) && Distinct(keys) && (forall k :: k in keys <==> k in records)
             && KeysInOrder(records, keys)
    ensures RecordsOf(RecordsAt(records, keys), keys, vs) && InOrder(RecordsAt(records, keys))
  {}

  method NoteAll(total: nat, counts: map<string, nat>, records: map<string, Package>, vs: seq<Vulnerability>,
                 ghost before: seq<Vulnerability>)
    returns (total': nat, counts': map<string, nat>, records': map<string, Package>)
    requires RecordsSeen(records, before) && CountsSeen(counts, before) && total == |before|
    ensures RecordsSeen(records', before + vs) && CountsSeen(counts', before + vs) && total' == |before + vs|
  {
    total', counts', records' := total, counts, records;
    assert before + vs[..0] == before;
    for j := 0 to |vs|
      invariant RecordsSeen(records', before + vs[..j]) && CountsSeen(counts', before + vs[..j])
                && total' == |before| + j
    {
      assert before + vs[..j + 1] == before + vs[..j] + [vs[j]];
      total', counts', records' := Note(total', counts', records', vs[j], before + vs[..j]);
    }
    assert vs[..|vs|] == vs;
  }

  /** The body of the inner loop. */
  method Note(total: nat, counts: map<string, nat>, records: map<string, Package>, v: Vulnerability,
              ghost before: seq<Vulnerability>)
    returns (total': nat, counts': map<string, nat>, records': map<string, Package>)
    requires RecordsSeen(records, before) && CountsSeen(counts, before)
    ensures RecordsSeen(records', before + [v]) && CountsSeen(counts', before + [v]) && total' == total + 1
  {
    RecordsSeenOne(records, before, v);
    CountsSeenOne(counts, before, v);
    var severity, key := Severity(v), Key(v);
    total' := total + 1;
    counts' := counts[severity := (if severity in counts then counts[severity] else 0) + 1];
    var p := if key in records then records[key] else Opened(v);
    if p.fixed == "" { p := p.(fixed := v.fixed); }
    if Rank(severity) > Rank(p.highest) { p := p.(highest := severity); }
    p := Bumped(p, severity);
    if |p.ids| < MAX_IDS && v.id != "" { p := p.(ids := p.ids + [v.id]); }
    records' := records[key := p];
  }

  /** The records in whatever order the map gives them, then sorted. */
  method SortedKeys(records: map<string, Package>) returns (keys: seq<string>)
    ensures Distinct(keys) && (forall k :: k in keys <==> k in records) && KeysInOrder(records, keys)
  {
    keys := [];
    var left := records.Keys;
    while left != {}
      invariant left <= records.Keys && Distinct(keys)
      invariant forall k :: k in keys <==> k in records && k !in left
      invariant KeysInOrder(records, keys)
    {
      var k :| k in left;
      left := left - {k};
      PlacedMembers(records, keys, k);
      PlacedInOrder(records, keys, k);
      keys := Placed(records, keys, k);
    }
  }

  /** Before the cut, the records of all packages together count each critical, high, medium and low
      vulnerability exactly once. */
  lemma {:induction false} RecordsConserveCounts(all: seq<Package>, keys: seq<string>, vs: seq<Vulnerability>,
                                                 severity: string)
    requires RecordsOf(all, keys, vs) && Counted(severity)
    ensures SumIn(all, severity) == CountAll(vs, severity)
  {
    SumOfRecords(all, keys, vs, severity);
    CountsAddUp(keys, vs, severity);
  }

  function SumAll(severities: seq<string>, vs: seq<Vulnerability>): nat
    decreases |severities|
  {
    if severities == [] then 0
    else SumAll(severities[..|severities| - 1], vs) + CountAll(vs, severities[|severities| - 1])
  }

  lemma {:induction false} SumAllMore(severities: seq<string>, vs: seq<Vulnerability>, v: Vulnerability)
    requires Distinct(severities)
    ensures SumAll(severities, vs + [v]) == SumAll(severities, vs) + if Severity(v) in severities then 1 else 0
    decreases |severities|
  {
    assert (vs + [v])[..|vs|] == vs;
    if severities != [] {
      var n := |severities| - 1;
      SumAllMore(severities[..n], vs, v);
      assert severities == severities[..n] + [severities[n]];
    }
  }

  lemma {:induction false} SumAllNone(severities: seq<string>)
    ensures SumAll(severities, []) == 0
    decreases |severities|
  {
    if severities != [] { SumAllNone(severities[..|severities| - 1]); }
  }

  /** The total is the sum of the counts, over whatever severities there are. */
  lemma {:induction false} TotalIsSumOfCounts(severities: seq<string>, vs: seq<Vulnerability>)
    requires Distinct(severities) && forall i :: 0 <= i < |vs| ==> Severity(vs[i]) in severities
    ensures SumAll(severities, vs) == |vs|
    decreases |vs|
  {
    if vs == [] {
      SumAllNone(severities);
    } else {
      var n := |vs| - 1;
      TotalIsSumOfCounts(severities, vs[..n]);
      SumAllMore(severities, vs[..n], vs[n]);
      assert vs == vs[..n] + [vs[n]];
    }
  }

  /** Nothing of a package that is cut is worse than the worst of each package that is kept. */
  lemma {:induction false} CutKeepsTheWorst(all: seq<Package>, keys: seq<string>, vs: seq<Vulnerability>, i: nat,
                                            j: nat, a: nat)
    requires RecordsOf(all, keys, vs) && InOrder(all) && i < MAX_PACKAGES <= j < |all|
    requires a < |vs| && Key(vs[a]) == keys[j]
    ensures exists b :: 0 <= b < |vs| && Key(vs[b]) == keys[i] && Rank(Severity(vs[a])) <= Rank(Severity(vs[b]))
  {
    assert Describes(all[i], vs, keys[i]) && Describes(all[j], vs, keys[j]);
    assert !Before(all[j], all[i]);
    var b :| 0 <= b < |vs| && Key(vs[b]) == keys[i] && Severity(vs[b]) == all[i].highest;
  }

  // ---------- severities and order ----------

  /** How severe a severity is, by name: four are ranked, and all others are below them. */
  lemma {:induction false} RankMeans(severity: string)
    ensures severity !in {"CRITICAL", "HIGH", "MEDIUM", "LOW"} ==> Rank(severity) < Rank("LOW")
    ensures Rank("CRITICAL") > Rank("HIGH") > Rank("MEDIUM") > Rank("LOW")
  {
    NamesDiffer();
  }

  lemma {:induction false} NamesDiffer()
    ensures "CRITICAL" != "HIGH" && "CRITICAL" != "MEDIUM" && "CRITICAL" != "LOW"
    ensures "HIGH" != "MEDIUM" && "HIGH" != "LOW" && "MEDIUM" != "LOW"
  {
    assert |"CRITICAL"| == 8 && |"HIGH"| == 4 && |"MEDIUM"| == 6 && |"LOW"| == 3; // told apart by their lengths
  }

  /** The highest severity of a package is critical if one of its vulnerabilities is, high if one is and none is
      critical, and so on. */
  lemma {:induction false} HighestMeans(highest: string, vs: seq<Vulnerability>, key: string, i: nat)
    requires Worst(highest, vs, key) && i < |vs| && Key(vs[i]) == key
    ensures Severity(vs[i]) == "CRITICAL" ==> highest == "CRITICAL"
    ensures Severity(vs[i]) == "HIGH" ==> highest in {"CRITICAL", "HIGH"}
    ensures Severity(vs[i]) == "MEDIUM" ==> highest in {"CRITICAL", "HIGH", "MEDIUM"}
    ensures Severity(vs[i]) == "LOW" ==> highest in {"CRITICAL", "HIGH", "MEDIUM", "LOW"}
    ensures exists j :: 0 <= j < |vs| && Key(vs[j]) == key && Severity(vs[j]) == highest
  {
    RankMeans(highest);
    RankMeans(Severity(vs[i]));
  }

  /** The packages of a report: all critical ones first, then high, medium and low, and each in order of name. */
  lemma {:induction false} OrderMeans(all: seq<Package>, i: nat, j: nat)
    requires InOrder(all) && i < j < |all|
    ensures all[j].highest == "CRITICAL" ==> all[i].highest == "CRITICAL"
    ensures all[j].highest == "HIGH" ==> all[i].highest in {"CRITICAL", "HIGH"}
    ensures all[j].highest == "MEDIUM" ==> all[i].highest in {"CRITICAL", "HIGH", "MEDIUM"}
    ensures all[j].highest == "LOW" ==> all[i].highest in {"CRITICAL", "HIGH", "MEDIUM", "LOW"}
    ensures all[i].highest == all[j].highest ==> !Less(all[j].name, all[i].name)
  {
    assert !Before(all[j], all[i]);
    RankMeans(all[i].highest);
    RankMeans(all[j].highest);
  }

  /** The texts are the same up to `k`, where the first ends or has the smaller letter. */
  predicate DiffersAt(a: string, b: string, k: nat) {
    k <= |a| && k < |b| && a[..k] == b[..k] && (k == |a| || a[k] < b[k])
  }

  /** Names are ordered like words in a dictionary: by the first letter that differs, and a beginning comes first. */
  lemma {:induction false} LessMeans(a: string, b: string)
    ensures Less(a, b) <==> exists k: nat :: DiffersAt(a, b, k)
  {
    if a == [] || b == [] {
      if a == [] && b != [] { assert DiffersAt(a, b, 0); }
    } else if a[0] == b[0] {
      LessMeans(a[1..], b[1..]);
      if k: nat :| DiffersAt(a[1..], b[1..], k) {
        assert a[..k + 1] == [a[0]] + a[1..][..k] && b[..k + 1] == [b[0]] + b[1..][..k];
        assert DiffersAt(a, b, k + 1);
      }
      if k: nat :| DiffersAt(a, b, k) {
        assert k > 0 && a[1..][..k - 1] == a[..k][1..] && b[1..][..k - 1] == b[..k][1..];
        assert DiffersAt(a[1..], b[1..], k - 1);
      }
    } else {
      if a[0] < b[0] { assert DiffersAt(a, b, 0); }
      forall k: nat | 0 < k <= |a| && k < |b| ensures a[..k] != b[..k] {
        assert a[..k][0] == a[0] && b[..k][0] == b[0];
      }
    }
  }

  /** The fixed version of a package is the first one that any of its vulnerabilities names. */
  lemma {:induction false} FixMeans(vs: seq<Vulnerability>, key: string)
    ensures FixOf(vs, key) == "" ==> forall i :: 0 <= i < |vs| && Key(vs[i]) == key ==> vs[i].fixed == ""
    ensures FixOf(vs, key) != "" ==>
              exists i :: 0 <= i < |vs| && Key(vs[i]) == key && vs[i].fixed == FixOf(vs, key)
                          && forall k :: 0 <= k < i && Key(vs[k]) == key ==> vs[k].fixed == ""
    decreases |vs|
  {
    if vs != [] {
      var n := |vs| - 1;
      FixMeans(vs[..n], key);
      assert forall i :: 0 <= i < n ==> vs[..n][i] == vs[i];
    }
  }

  /** At most eight advisories are listed, the first ones. */
  lemma {:induction false} ListedIdsMean(p: Package, vs: seq<Vulnerability>, key: string)
    requires Describes(p, vs, key)
    ensures p.ids <= IdsOf(vs, key) && |p.ids| == if |IdsOf(vs, key)| < 8 then |IdsOf(vs, key)| else 8
  {}
}

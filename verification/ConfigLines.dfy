/** How the lines of a configuration file, and the texts in them, are read back. */
module ConfigLines {
  import opened Text
  import opened ConfigFile

  lemma {:induction false} ScannedJoined(lines: seq<string>)
    requires forall i :: 0 <= i < |lines| ==> '\n' !in lines[i]
    ensures Split(Joined(lines), '\n') == lines + [""]
    ensures Scanned(Joined(lines)) == lines
    decreases |lines|
  {
    if lines == [] {
      SplitNowhere("", '\n');
    } else {
      ScannedJoined(lines[1..]);
      SplitAt(lines[0], Joined(lines[1..]), '\n');
      assert lines == [lines[0]] + lines[1..];
    }
  }

  // ---------- numbers come back ----------

  lemma {:induction false} OneMoreDigit(digits: string, n: nat, d: nat)
    requires Digits(digits) == Some(n) && d < 10
    ensures Digits(digits + [('0' as int + d) as char]) == Some(n * 10 + d)
  {
    var more := digits + [('0' as int + d) as char];
    assert more[..|digits|] == digits;
  }

  lemma {:induction false} DecimalIsDigits(n: nat)
    ensures Decimal(n) != "" && forall i :: 0 <= i < |Decimal(n)| ==> '0' <= Decimal(n)[i] <= '9'
  {
    if n >= 10 { DecimalIsDigits(n / 10); }
  }

  lemma {:induction false} DecimalBack(n: nat)
    ensures Digits(Decimal(n)) == Some(n)
  {
    if n < 10 {
      OneMoreDigit("", 0, n);
      assert "" + [('0' as int + n) as char] == [('0' as int + n) as char] == Decimal(n);
    } else {
      var front, digit := Decimal(n / 10), n % 10;
      assert n == n / 10 * 10 + digit;
      DecimalBack(n / 10);
      OneMoreDigit(front, n / 10, digit);
      assert Decimal(n) == front + [('0' as int + digit) as char];
    }
  }

  lemma {:induction false} SignedBack(digits: string, n: int)
    requires n >= 0 && digits != "" && digits[0] != '+' && digits[0] != '-' && Digits(digits) == Some(n)
    ensures n <= MAX_INT ==> Integer64(digits) == Some(n)
    ensures n <= MAX_INT + 1 ==> Integer64("-" + digits) == Some(-n)
  {
    assert ("-" + digits)[1..] == digits;
  }

  lemma {:induction false} IntegerBack(n: int)
    requires -MAX_INT - 1 <= n <= MAX_INT
    ensures Integer64(Shown(n)) == Some(n)
  {
    var size := if n < 0 then -n else n;
    DecimalBack(size);
    DecimalIsDigits(size);
    SignedBack(Decimal(size), size);
  }

  lemma {:induction false} NaturalBack(n: int)
    requires 0 <= n <= MAX_UINT
    ensures Natural64(Shown(n)) == Some(n)
  {
    DecimalBack(n);
    DecimalIsDigits(n);
  }

  // ---------- trimming ----------

  lemma {:induction false} TrimLeftSpaces(a: string, b: string)
    requires forall i :: 0 <= i < |a| ==> IsSpace(a[i])
    ensures TrimLeft(a + b) == TrimLeft(b)
  {
    if a == "" {
      assert a + b == b;
    } else {
      assert (a + b)[1..] == a[1..] + b;
      TrimLeftSpaces(a[1..], b);
    }
  }

  lemma {:induction false} TrimLeftConcat(a: string, b: string)
    ensures TrimLeft(a + b) == if TrimLeft(a) == "" then TrimLeft(b) else TrimLeft(a) + b
  {
    if a == "" {
      assert a + b == b;
    } else if IsSpace(a[0]) {
      assert (a + b)[1..] == a[1..] + b;
      TrimLeftConcat(a[1..], b);
    }
  }

  lemma {:induction false} TrimRightConcat(a: string, b: string)
    ensures TrimRight(a + b) == if TrimRight(b) == "" then TrimRight(a) else a + TrimRight(b)
    decreases |b|
  {
    if b == "" {
      assert a + b == a;
    } else {
      var n := |b| - 1;
      assert (a + b)[..|a + b| - 1] == a + b[..n];
      if IsSpace(b[n]) { TrimRightConcat(a, b[..n]); }
    }
  }

  lemma {:induction false} TrimRightPrefix(s: string)
    ensures TrimRight(s) <= s && (TrimRight(s) != "" ==> !IsSpace(TrimRight(s)[|TrimRight(s)| - 1]))
    ensures TrimRight(TrimRight(s)) == TrimRight(s)
    decreases |s|
  {
    if s != "" && IsSpace(s[|s| - 1]) { TrimRightPrefix(s[..|s| - 1]); }
  }

  lemma {:induction false} TrimLeftStarts(s: string)
    ensures TrimLeft(s) != "" ==> !IsSpace(TrimLeft(s)[0])
    ensures TrimLeft(TrimLeft(s)) == TrimLeft(s)
  {
    if s != "" && IsSpace(s[0]) { TrimLeftStarts(s[1..]); }
  }

  /** Spaces at the end make no difference. */
  lemma {:induction false} TrimTail(s: string)
    ensures TrimSpace(TrimRight(s)) == TrimSpace(s)
    decreases |s|
  {
    if s != "" && IsSpace(s[|s| - 1]) {
      var n := |s| - 1;
      TrimTail(s[..n]);
      assert s == s[..n] + [s[n]];
      TrimLeftConcat(s[..n], [s[n]]);
      assert [s[n]][1..] == "";
      if TrimLeft(s[..n]) != "" { assert (TrimLeft(s[..n]) + [s[n]])[..|TrimLeft(s[..n])|] == TrimLeft(s[..n]); }
    }
  }

  // ---------- one line ----------

  predicate KeyChar(c: char) {
    'a' <= c <= 'z' || c == '_'
  }

  predicate PlainKey(k: string) {
    k != "" && forall i :: 0 <= i < |k| ==> KeyChar(k[i])
  }

  /** The line of such a text is read as the start of a subsection. */
  predicate Swallows(text: string) {
    TrimRight(text) == "" || EndsInColon(TrimRight(text))
  }

  lemma {:induction false} TrimRightEnd(s: string)
    requires s != "" && !IsSpace(s[|s| - 1])
    ensures TrimRight(s) == s && TrimRight(s + " ") == s
  {
    assert (s + " ")[..|s|] == s;
  }

  lemma {:induction false} FieldLineStarts(key: string, text: string)
    requires PlainKey(key)
    ensures TrimLeft(FieldLine(key, text)) == (key + ": ") + text
  {
    var rest := (key + ": ") + text;
    assert FieldLine(key, text) == "  " + rest;
    TrimLeftSpaces("  ", rest);
    assert rest[0] == key[0] && KeyChar(key[0]);
  }

  lemma {:induction false} FieldLineTrimmed(key: string, text: string)
    requires PlainKey(key)
    ensures TrimSpace(FieldLine(key, text)) == key + ":" + if TrimRight(text) == "" then "" else " " + TrimRight(text)
  {
    FieldLineStarts(key, text);
    TrimRightConcat(key + ": ", text);
    TrimRightEnd(key + ":");
    assert key + ": " == (key + ":") + " ";
    assert (key + ": ") + TrimRight(text) == key + ":" + (" " + TrimRight(text));
  }

  lemma {:induction false} FirstColon(a: string, b: string)
    requires ':' !in a
    ensures ColonAt(a + ":" + b) == Some(|a|)
  {
    var s := a + ":" + b;
    if a != "" {
      assert s[1..] == a[1..] + ":" + b;
      FirstColon(a[1..], b);
    }
  }

  lemma {:induction false} PlainIsTrimmed(k: string)
    requires PlainKey(k)
    ensures TrimSpace(k) == k && ':' !in k && '.' !in k
  {
    assert KeyChar(k[0]) && KeyChar(k[|k| - 1]);
  }

  lemma {:induction false} FieldLineParts(key: string, text: string)
    requires PlainKey(key) && !Swallows(text)
    ensures var line := TrimSpace(FieldLine(key, text));
            && line == key + ":" + (" " + TrimRight(text))
            && KeyChar(line[0]) && !EndsInColon(line) && ColonAt(line) == Some(|key|)
            && line[..|key|] == key && line[|key| + 1..] == " " + TrimRight(text)
  {
    var line, tail := TrimSpace(FieldLine(key, text)), " " + TrimRight(text);
    FieldLineTrimmed(key, text);
    FirstColon(key, tail);
    assert line[0] == key[0];
    assert line[|line| - 1] == TrimRight(text)[|TrimRight(text)| - 1];
  }

  lemma {:induction false} ValueTrimmed(text: string)
    ensures TrimSpace(" " + TrimRight(text)) == TrimSpace(text)
  {
    TrimLeftSpaces(" ", TrimRight(text));
    TrimTail(text);
  }

  /** A field is read with its text, trimmed, and without quotes at its ends. */
  lemma {:induction false} ReadField(schema: seq<Section>, codec: Codec, r: Reader, key: string, text: string)
    requires PlainKey(key) && !Swallows(text)
    ensures ReadLine(schema, codec, r, FieldLine(key, text)) ==
              match SetValue(schema, codec, r.cfg, r.section, Qualified(r.subsection, key), TrimQuotes(TrimSpace(text)))
              case None => None
              case Some(cfg) => Some(r.(cfg := cfg))
  {
    FieldLineParts(key, text);
    PlainIsTrimmed(key);
    ValueTrimmed(text);
  }

  /** A field with a blank text, or one that ends in a colon, opens a subsection. */
  lemma {:induction false} ReadSwallowed(schema: seq<Section>, codec: Codec, r: Reader, key: string, text: string)
    requires PlainKey(key) && Swallows(text)
    ensures exists name ::
              name != "" && ReadLine(schema, codec, r, FieldLine(key, text)) == Some(r.(subsection := name))
  {
    var raw, line := FieldLine(key, text), TrimSpace(FieldLine(key, text));
    FieldLineTrimmed(key, text);
    assert line[0] == key[0] && KeyChar(line[0]);
    assert raw[0] == ' ';
    assert line[..|line| - 1][0] == key[0];
    assert ReadLine(schema, codec, r, raw) == Some(r.(subsection := line[..|line| - 1]));
  }

  lemma {:induction false} ReadHeader(schema: seq<Section>, codec: Codec, r: Reader, name: string)
    requires PlainKey(name)
    ensures ReadLine(schema, codec, r, name + ":") == Some(Reader(name, "", r.cfg))
  {
    var raw := name + ":";
    assert raw[0] == name[0] && KeyChar(raw[0]) && raw[..|raw| - 1] == name;
    assert TrimSpace(raw) == raw;
  }

  // ---------- texts of values that are not words ----------

  /** No spaces, quotes or colons. */
  predicate Solid(text: string) {
    text != "" && forall i :: 0 <= i < |text| ==> !IsSpace(text[i]) && text[i] != '"' && text[i] != ':'
  }

  /** A duration or an angle has a text that is read back as that value. */
  predicate ReadsBack(codec: Codec, v: Value) {
    match v
    case Duration(_) => Solid(codec.show(v)) && codec.read(Span, codec.show(v)) == Some(v)
    case Angle(_) => Solid(codec.show(v)) && codec.read(Degrees, codec.show(v)) == Some(v)
    case _ => true
  }

  /** All durations and angles of the configuration do. */
  predicate Readable(codec: Codec, cfg: Config) {
    forall k :: k in cfg.values ==> ReadsBack(codec, cfg.values[k])
  }

  lemma {:induction false} SolidStays(text: string)
    requires Solid(text)
    ensures TrimQuotes(TrimSpace(text)) == text && !Swallows(text)
  {
    assert !IsSpace(text[0]) && !IsSpace(text[|text| - 1]);
  }

  lemma {:induction false} DigitsAreSolid(digits: string)
    requires digits != "" && forall i :: 0 <= i < |digits| ==> '0' <= digits[i] <= '9'
    ensures Solid(digits) && Solid("-" + digits)
  {
    var signed := "-" + digits;
    forall i | 0 <= i < |signed| ensures !IsSpace(signed[i]) && signed[i] != '"' && signed[i] != ':' {
      if i > 0 { assert signed[i] == digits[i - 1]; }
    }
  }

  lemma {:induction false} NumberIsSolid(n: int)
    ensures Solid(Shown(n))
  {
    var size := if n < 0 then -n else n;
    DecimalIsDigits(size);
    DigitsAreSolid(Decimal(size));
  }

  lemma {:induction false} BoolBack(b: bool)
    ensures Solid(BoolText(b)) && ReadBool(BoolText(b)) == b
  {
    assert ToLower("true") == "true";
    assert ToLower("false") == "false" && |ToLower("yes")| == 3 && |ToLower("true")| == 4;
  }

  /** What a value reads back as. */
  function Reread(kind: Kind, v: Value): Value {
    match v
    case Wording(text) =>
      var kept := TrimQuotes(TrimSpace(text));
      Wording(if kind == Lowered then ToLower(kept) else kept)
    case _ => v
  }

  lemma {:induction false} ValueBack(codec: Codec, kind: Kind, v: Value)
    requires ReadsBack(codec, v) && Fits(kind, v)
    ensures ReadValue(codec, kind, TrimQuotes(TrimSpace(ValueText(codec, v)))) == Some(Reread(kind, v))
    ensures !v.Wording? ==> !Swallows(ValueText(codec, v))
  {
    match v {
      case Wording(_) =>
      case Switch(on) => BoolBack(on); SolidStays(BoolText(on));
      case Number(n) =>
        NumberIsSolid(n);
        SolidStays(Shown(n));
        if kind == Whole { IntegerBack(n); } else { NaturalBack(n); }
      case _ => SolidStays(codec.show(v));
    }
  }
}

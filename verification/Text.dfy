/** Text helpers that the agent takes from Go's `strings` package, and a few small wrappers. */
module Text {

  datatype Option<+T> = None | Some(value: T)

  datatype Result<+T> = Ok(value: T) | Err(message: string)

  /** A Go `error` value: `None` is `nil`. */
  type Error = Option<string>

  /** `unicode.IsSpace`. */
  predicate IsSpace(c: char) {
    || c == ' ' || '\t' <= c <= '\r' || c == '\U{0085}' || c == '\U{00A0}' || c == '\U{1680}'
    || '\U{2000}' <= c <= '\U{200A}' || c == '\U{2028}' || c == '\U{2029}' || c == '\U{202F}'
    || c == '\U{205F}' || c == '\U{3000}'
  }

  function TrimLeft(s: string): string {
    if s != [] && IsSpace(s[0]) then TrimLeft(s[1..]) else s
  }

  function TrimRight(s: string): string {
    if s != [] && IsSpace(s[|s| - 1]) then TrimRight(s[..|s| - 1]) else s
  }

  function TrimSpace(s: string): string {
    TrimRight(TrimLeft(s))
  }

  function LowerChar(c: char): char {
    if 'A' <= c <= 'Z' then (c as int + 32) as char else c
  }

  function ToLower(s: string): string {
    seq(|s|, i requires 0 <= i < |s| => LowerChar(s[i]))
  }

  function UpperChar(c: char): char {
    if 'a' <= c <= 'z' then (c as int - 32) as char else c
  }

  function ToUpper(s: string): string {
    seq(|s|, i requires 0 <= i < |s| => UpperChar(s[i]))
  }

  /** `strings.EqualFold` on ASCII text. */
  predicate EqualFold(a: string, b: string) {
    ToLower(a) == ToLower(b)
  }

  predicate HasPrefix(s: string, prefix: string) {
    |prefix| <= |s| && s[..|prefix|] == prefix
  }

  predicate Contains(s: string, part: string) {
    exists i :: 0 <= i <= |s| && HasPrefix(s[i..], part)
  }

  predicate SafeChar(c: char) {
    'a' <= c <= 'z' || 'A' <= c <= 'Z' || '0' <= c <= '9' || c == '-' || c == '_'
  }

  /** The file name that the engine derives from an update id. */
  function SafeId(value: string): string {
    seq(|value|, i requires 0 <= i < |value| => if SafeChar(value[i]) then value[i] else '_')
  }

  // ---------- what the helpers mean ----------

  lemma {:induction false} LeftTrimmed(s: string) returns (i: nat)
    ensures i <= |s| && TrimLeft(s) == s[i..] && (forall k :: 0 <= k < i ==> IsSpace(s[k]))
            && (i < |s| ==> !IsSpace(s[i]))
  {
    if s != [] && IsSpace(s[0]) {
      var j := LeftTrimmed(s[1..]);
      i := j + 1;
      assert s[1..][j..] == s[i..];
      assert forall k :: 1 <= k < i ==> s[k] == s[1..][k - 1];
    } else {
      i := 0;
    }
  }

  lemma {:induction false} RightTrimmed(s: string) returns (n: nat)
    ensures n <= |s| && TrimRight(s) == s[..n] && (forall k :: n <= k < |s| ==> IsSpace(s[k]))
            && (n > 0 ==> !IsSpace(s[n - 1]))
    decreases |s|
  {
    if s != [] && IsSpace(s[|s| - 1]) {
      n := RightTrimmed(s[..|s| - 1]);
      assert s[..|s| - 1][..n] == s[..n];
    } else {
      n := |s|;
    }
  }

  /** Trimming takes away the white space at both ends, and nothing else. */
  lemma {:induction false} TrimmedEnds(s: string) returns (i: nat, n: nat)
    ensures i <= n <= |s| && TrimSpace(s) == s[i..n]
    ensures forall k :: 0 <= k < i || n <= k < |s| ==> IsSpace(s[k])
    ensures i < n ==> !IsSpace(s[i]) && !IsSpace(s[n - 1])
  {
    i := LeftTrimmed(s);
    var m := RightTrimmed(s[i..]);
    n := i + m;
    assert s[i..][..m] == s[i..n];
    assert forall k :: i <= k < |s| ==> s[k] == s[i..][k - i];
  }

  /** The same letter in either case, by the table of ASCII. */
  predicate SameLetter(a: char, b: char) {
    || a == b
    || ('A' <= a <= 'Z' && b as int == a as int - 65 + 97)
    || ('A' <= b <= 'Z' && a as int == b as int - 65 + 97)
  }

  /** Texts are equal up to case when they are so letter by letter. */
  lemma {:induction false} EqualFoldMeans(a: string, b: string)
    ensures EqualFold(a, b) <==> |a| == |b| && forall i :: 0 <= i < |a| ==> SameLetter(a[i], b[i])
  {
    assert |ToLower(a)| == |a| && |ToLower(b)| == |b|;
    if |a| == |b| {
      forall i | 0 <= i < |a| ensures ToLower(a)[i] == ToLower(b)[i] <==> SameLetter(a[i], b[i]) {}
      if forall i :: 0 <= i < |a| ==> SameLetter(a[i], b[i]) { assert ToLower(a) == ToLower(b); }
    }
  }

  /** Lower and upper case change letters to those of the other case, and leave everything else. */
  lemma {:induction false} CasesMean(s: string, i: nat)
    requires i < |s|
    ensures ToLower(s)[i] == (if 'A' <= s[i] <= 'Z' then (s[i] as int - 65 + 97) as char else s[i])
    ensures ToUpper(s)[i] == (if 'a' <= s[i] <= 'z' then (s[i] as int - 97 + 65) as char else s[i])
    ensures SameLetter(ToLower(s)[i], s[i]) && SameLetter(ToUpper(s)[i], s[i])
  {}

  /** A text contains another exactly when it can be written around it. */
  lemma {:induction false} ContainsMeans(s: string, part: string)
    ensures Contains(s, part) <==> exists i, j :: 0 <= i <= j <= |s| && s[i..j] == part
  {
    if Contains(s, part) {
      var i :| 0 <= i <= |s| && HasPrefix(s[i..], part);
      assert s[i..i + |part|] == s[i..][..|part|] == part;
    }
    if i, j :| 0 <= i <= j <= |s| && s[i..j] == part {
      assert s[i..][..|part|] == part;
      assert HasPrefix(s[i..], part);
    }
  }

  /** A file name has the length of its id, keeps letters, digits, `-` and `_`, and has nothing else. */
  lemma {:induction false} SafeIdMeans(value: string, i: nat)
    requires i < |value|
    ensures |SafeId(value)| == |value|
    ensures var c := SafeId(value)[i];
            var kept := 'a' <= value[i] <= 'z' || 'A' <= value[i] <= 'Z' || '0' <= value[i] <= '9' || value[i] == '-';
            c == if kept then value[i] else '_'
  {}

  // ---------- splitting and numbers ----------

  /** `strings.Split` at a character. */
  function Split(s: string, at: char): (parts: seq<string>)
    ensures parts != []
  {
    if s == "" then [""]
    else
      var rest := Split(s[1..], at);
      if s[0] == at then [""] + rest else [[s[0]] + rest[0]] + rest[1..]
  }

  lemma {:induction false} SplitAt(a: string, b: string, at: char)
    requires at !in a
    ensures Split(a + [at] + b, at) == [a] + Split(b, at)
  {
    var s := a + [at] + b;
    if a == "" {
      assert s[1..] == b;
    } else {
      SplitAt(a[1..], b, at);
      assert s[1..] == a[1..] + [at] + b;
      assert [a[0]] + a[1..] == a;
    }
  }

  lemma {:induction false} SplitNowhere(a: string, at: char)
    requires at !in a
    ensures Split(a, at) == [a]
  {
    if a != "" {
      SplitNowhere(a[1..], at);
      assert [a[0]] + a[1..] == a;
    }
  }

  const MAX_INT := 0x7FFF_FFFF_FFFF_FFFF

  function Digits(s: string): Option<nat>
    decreases |s|
  {
    if s == "" then Some(0)
    else
      var n := |s| - 1;
      var rest := Digits(s[..n]);
      if '0' <= s[n] <= '9' && rest.Some? then Some(rest.value * 10 + (s[n] as int - '0' as int)) else None
  }

  /** `strconv.Atoi` and `strconv.ParseInt` in base ten, on 64-bit integers. */
  function Integer64(s: string): Option<int> {
    var signed := s != "" && (s[0] == '+' || s[0] == '-');
    var digits := if signed then s[1..] else s;
    if digits == "" || Digits(digits) == None then None
    else
      var magnitude: int := Digits(digits).value;
      var n := if signed && s[0] == '-' then -magnitude else magnitude;
      if -MAX_INT - 1 <= n <= MAX_INT then Some(n) else None
  }

  /** One more digit, in base ten; and nothing else is a digit. */
  lemma {:induction false} DigitsMean(s: string, c: char)
    ensures Digits([]) == Some(0)
    ensures Digits(s + [c]) ==
              if Digits(s).Some? && '0' <= c <= '9' then Some(10 * Digits(s).value + (c as int - 48)) else None
  {
    assert (s + [c])[..|s|] == s;
  }

  /** The range of the integers that are read. */
  lemma {:induction false} Integer64Means(s: string)
    requires s != "" && Digits(s).Some?
    ensures Integer64(s) == if Digits(s).value <= 9223372036854775807 then Some(Digits(s).value) else None
    ensures var n: int := Digits(s).value; Integer64("-" + s) == if n <= 9223372036854775808 then Some(-n) else None
    ensures Integer64("+" + s) == Integer64(s) && Integer64("") == None
  {
    DigitFirst(s);
    assert ("-" + s)[1..] == s && ("+" + s)[1..] == s;
  }

  lemma {:induction false} DigitFirst(s: string)
    requires s != "" && Digits(s).Some?
    ensures '0' <= s[0] <= '9'
    decreases |s|
  {
    if |s| > 1 { DigitFirst(s[..|s| - 1]); }
  }
}

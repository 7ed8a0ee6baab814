/** Password hashes: PBKDF2 with HMAC-SHA-256, kept as text with unpadded base64 fields. */
module Passwords {
  import opened Text

  type Byte = x: int | 0 <= x < 256

  type Bytes = seq<Byte>

  const HASH_LENGTH := 32
  const ITERATIONS := 210000
  const MIN_ITERATIONS := 100000
  const KEY_BYTES := 32

  /** Any keyed hash with the length of SHA-256: the key first, then the message. */
  ghost predicate IsPrf(prf: (Bytes, Bytes) -> Bytes) {
    forall key, message :: |prf(key, message)| == HASH_LENGTH
  }

  // ---------- section 5.2 of RFC 8018 ----------

  function XorByte(a: Byte, b: Byte): Byte {
    ((a as bv8) ^ (b as bv8)) as int
  }

  function Xor(a: Bytes, b: Bytes): Bytes
    requires |a| == |b|
  {
    seq(|a|, i requires 0 <= i < |a| => XorByte(a[i], b[i]))
  }

  /** INT (i): four octets, the most significant first. */
  function BigEndian(i: nat): Bytes {
    [i / 0x100_0000 % 256, i / 0x1_0000 % 256, i / 0x100 % 256, i % 256]
  }

  /** U_c of block `i`. */
  function U(prf: (Bytes, Bytes) -> Bytes, password: Bytes, salt: Bytes, i: nat, c: nat): Bytes
    requires c >= 1
  {
    if c == 1 then prf(password, salt + BigEndian(i)) else prf(password, U(prf, password, salt, i, c - 1))
  }

  /** F (P, S, c, i): the exclusive-or of U_1 to U_c. */
  function F(prf: (Bytes, Bytes) -> Bytes, password: Bytes, salt: Bytes, c: nat, i: nat): (t: Bytes)
    requires c >= 1 && IsPrf(prf)
    ensures |t| == HASH_LENGTH
  {
    if c == 1 then U(prf, password, salt, i, 1)
    else Xor(F(prf, password, salt, c - 1, i), U(prf, password, salt, i, c))
  }

  /** T_1 to T_l, one after the other. */
  function Blocks(prf: (Bytes, Bytes) -> Bytes, password: Bytes, salt: Bytes, c: nat, l: nat): (dk: Bytes)
    requires c >= 1 && IsPrf(prf)
    ensures |dk| == l * HASH_LENGTH
  {
    if l == 0 then [] else Blocks(prf, password, salt, c, l - 1) + F(prf, password, salt, c, l)
  }

  function Pbkdf2(prf: (Bytes, Bytes) -> Bytes, password: Bytes, salt: Bytes, c: nat, length: nat): (dk: Bytes)
    requires c >= 1 && IsPrf(prf)
    ensures |dk| == length
  {
    Blocks(prf, password, salt, c, (length + HASH_LENGTH - 1) / HASH_LENGTH)[..length]
  }

  /** The first blocks and iterations, written out: the key of a single iteration is the keyed hash of salt and block
      number, a second iteration adds the hash of that, and the blocks follow each other. */
  lemma {:induction false} Pbkdf2Starts(prf: (Bytes, Bytes) -> Bytes, password: Bytes, salt: Bytes, c: nat)
    requires IsPrf(prf) && c >= 1
    ensures Pbkdf2(prf, password, salt, c, 0) == []
    ensures Pbkdf2(prf, password, salt, 1, 32) == prf(password, salt + [0, 0, 0, 1])
    ensures Pbkdf2(prf, password, salt, 1, 64)
            == prf(password, salt + [0, 0, 0, 1]) + prf(password, salt + [0, 0, 0, 2])
    ensures var u1 := prf(password, salt + [0, 0, 0, 1]);
            var u2 := prf(password, u1);
            Pbkdf2(prf, password, salt, 2, 32)
                == seq(32, i requires 0 <= i < 32 => ((u1[i] as bv8) ^ (u2[i] as bv8)) as int)
  {
    var u1 := prf(password, salt + [0, 0, 0, 1]);
    assert BigEndian(1) == [0, 0, 0, 1] && BigEndian(2) == [0, 0, 0, 2];
    assert Blocks(prf, password, salt, 1, 1) == [] + u1 == u1;
    assert Blocks(prf, password, salt, 1, 2) == u1 + prf(password, salt + [0, 0, 0, 2]);
    assert Blocks(prf, password, salt, 2, 1) == [] + F(prf, password, salt, 2, 1) == F(prf, password, salt, 2, 1);
    assert U(prf, password, salt, 1, 2) == prf(password, u1);
    assert F(prf, password, salt, 2, 1) == Xor(u1, prf(password, u1));
  }

  /** The block number as four bytes, the most significant first: its digits in base 256. */
  lemma {:induction false} BigEndianMeans(i: nat)
    requires i < 0x1_0000_0000
    ensures |BigEndian(i)| == 4
    ensures var a: int, b: int, c: int, d: int := BigEndian(i)[0], BigEndian(i)[1], BigEndian(i)[2], BigEndian(i)[3];
            i == ((a * 256 + b) * 256 + c) * 256 + d
  {}

  /** The nested loops compute PBKDF2; an iteration count below one counts as one. */
  method Pbkdf2Sha256(prf: (Bytes, Bytes) -> Bytes, password: Bytes, salt: Bytes, iter: int, keyLen: nat)
    returns (key: Bytes)
    requires IsPrf(prf)
    ensures key == Pbkdf2(prf, password, salt, if iter < 1 then 1 else iter, keyLen)
  {
    var blocks := (keyLen + HASH_LENGTH - 1) / HASH_LENGTH;
    ghost var c := if iter < 1 then 1 else iter;
    var out: Bytes := [];
    var block := 1;
    while block <= blocks
      invariant 1 <= block <= blocks + 1
      invariant out == Blocks(prf, password, salt, c, block - 1)
    {
      var t := Block(prf, password, salt, iter, block);
      out := out + t;
      block := block + 1;
    }
    key := out[..keyLen];
  }

  /** The two inner loops. */
  method Block(prf: (Bytes, Bytes) -> Bytes, password: Bytes, salt: Bytes, iter: int, block: nat) returns (out: Bytes)
    requires IsPrf(prf)
    ensures out == F(prf, password, salt, if iter < 1 then 1 else iter, block)
  {
    var u := prf(password, salt + BigEndian(block));
    var t := new Byte[|u|](j requires 0 <= j < |u| => u[j]);
    assert t[..] == u;
    var i := 1;
    while i < iter
      invariant 1 <= i && (i <= iter || i == 1)
      invariant u == U(prf, password, salt, block, i)
      invariant t[..] == F(prf, password, salt, i, block)
    {
      u := Iterate(prf, password, u, t);
      i := i + 1;
    }
    out := t[..];
  }

  method Iterate(prf: (Bytes, Bytes) -> Bytes, password: Bytes, u: Bytes, t: array<Byte>) returns (next: Bytes)
    requires IsPrf(prf) && t.Length == HASH_LENGTH
    modifies t
    ensures next == prf(password, u) && |next| == HASH_LENGTH && t[..] == Xor(old(t[..]), next)
  {
    next := prf(password, u);
    XorInto(t, next);
  }

  method XorInto(t: array<Byte>, u: Bytes)
    requires t.Length == |u|
    modifies t
    ensures t[..] == Xor(old(t[..]), u)
  {
    for j := 0 to t.Length
      invariant forall k :: 0 <= k < j ==> t[k] == XorByte(old(t[k]), u[k])
      invariant forall k :: j <= k < t.Length ==> t[k] == old(t[k])
    {
      t[j] := XorByte(t[j], u[j]);
    }
  }

  // ---------- unpadded base64: sections 3.2 and 4 of RFC 4648 ----------

  type Sextet = x: int | 0 <= x < 64

  function Letter(v: Sextet): char {
    if v < 26 then ('A' as int + v) as char
    else if v < 52 then ('a' as int + v - 26) as char
    else if v < 62 then ('0' as int + v - 52) as char
    else if v == 62 then '+' else '/'
  }

  function Value(c: char): Option<Sextet> {
    if 'A' <= c <= 'Z' then Some(c as int - 'A' as int)
    else if 'a' <= c <= 'z' then Some(c as int - 'a' as int + 26)
    else if '0' <= c <= '9' then Some(c as int - '0' as int + 52)
    else if c == '+' then Some(62)
    else if c == '/' then Some(63)
    else None
  }

  function Encode(b: Bytes): string
    decreases |b|
  {
    if |b| == 0 then ""
    else if |b| == 1 then [Letter(b[0] / 4), Letter(b[0] % 4 * 16)]
    else if |b| == 2 then [Letter(b[0] / 4), Letter(b[0] % 4 * 16 + b[1] / 16), Letter(b[1] % 16 * 4)]
    else
      [Letter(b[0] / 4), Letter(b[0] % 4 * 16 + b[1] / 16), Letter(b[1] % 16 * 4 + b[2] / 64), Letter(b[2] % 64)]
      + Encode(b[3..])
  }

  /** Go's decoder passes over line breaks. */
  function WithoutBreaks(s: string): string {
    if s == "" then "" else (if s[0] == '\n' || s[0] == '\r' then "" else [s[0]]) + WithoutBreaks(s[1..])
  }

  predicate Plain(s: string) {
    forall i :: 0 <= i < |s| ==> Value(s[i]).Some?
  }

  function Values(s: string): seq<Sextet>
    requires Plain(s)
  {
    seq(|s|, i requires 0 <= i < |s| => Value(s[i]).value)
  }

  function First(v: Sextet, w: Sextet): Byte { v * 4 + w / 16 }

  function Second(v: Sextet, w: Sextet): Byte { v % 16 * 16 + w / 4 }

  function Third(v: Sextet, w: Sextet): Byte { v % 4 * 64 + w }

  function FromSextets(v: seq<Sextet>): Option<Bytes>
    decreases |v|
  {
    if |v| == 0 then Some([])
    else if |v| == 1 then None
    else if |v| == 2 then Some([First(v[0], v[1])])
    else if |v| == 3 then Some([First(v[0], v[1]), Second(v[1], v[2])])
    else
      match FromSextets(v[4..])
      case None => None
      case Some(rest) => Some([First(v[0], v[1]), Second(v[1], v[2]), Third(v[2], v[3])] + rest)
  }

  function Decode(s: string): Option<Bytes> {
    var text := WithoutBreaks(s);
    if Plain(text) then FromSextets(Values(text)) else None
  }

  lemma {:induction false} LetterValue(v: Sextet)
    ensures Value(Letter(v)) == Some(v)
  {}

  lemma {:induction false} PlainHasNoBreaks(s: string)
    requires Plain(s)
    ensures WithoutBreaks(s) == s && '$' !in s
  {
    if s != "" {
      PlainHasNoBreaks(s[1..]);
      assert Value(s[0]).Some?;
    }
  }

  /** The sextets that `Encode` writes the letters of. */
  function ToSextets(b: Bytes): seq<Sextet>
    decreases |b|
  {
    if |b| == 0 then []
    else if |b| == 1 then [b[0] / 4, b[0] % 4 * 16]
    else if |b| == 2 then [b[0] / 4, b[0] % 4 * 16 + b[1] / 16, b[1] % 16 * 4]
    else [b[0] / 4, b[0] % 4 * 16 + b[1] / 16, b[1] % 16 * 4 + b[2] / 64, b[2] % 64] + ToSextets(b[3..])
  }

  function Letters(v: seq<Sextet>): string {
    seq(|v|, i requires 0 <= i < |v| => Letter(v[i]))
  }

  lemma {:induction false} EncodeIsLetters(b: Bytes)
    ensures Encode(b) == Letters(ToSextets(b))
    decreases |b|
  {
    if |b| >= 3 { EncodeIsLetters(b[3..]); }
  }

  lemma {:induction false} LettersValues(v: seq<Sextet>)
    ensures Plain(Letters(v)) && Values(Letters(v)) == v
  {
    forall i | 0 <= i < |v| ensures Value(Letters(v)[i]) == Some(v[i]) { LetterValue(v[i]); }
  }

  lemma {:induction false} SextetsBack(b: Bytes)
    ensures FromSextets(ToSextets(b)) == Some(b)
    decreases |b|
  {
    if |b| >= 3 {
      SextetsBack(b[3..]);
      assert ToSextets(b)[4..] == ToSextets(b[3..]);
      var v := ToSextets(b)[..4];
      assert First(v[0], v[1]) == b[0] && Second(v[1], v[2]) == b[1] && Third(v[2], v[3]) == b[2];
      assert b == [b[0], b[1], b[2]] + b[3..];
    } else if |b| == 2 {
      var v := ToSextets(b);
      assert First(v[0], v[1]) == b[0] && Second(v[1], v[2]) == b[1];
      assert b == [b[0], b[1]];
    } else if |b| == 1 {
      assert b == [b[0]];
    }
  }

  /** Decoding gives back what was encoded, for every sequence of bytes; and the text has no `$`. */
  lemma {:induction false} DecodeEncode(b: Bytes)
    ensures Decode(Encode(b)) == Some(b) && '$' !in Encode(b)
  {
    EncodeIsLetters(b);
    LettersValues(ToSextets(b));
    PlainHasNoBreaks(Encode(b));
    SextetsBack(b);
  }

  /** The alphabet of section 4 of RFC 4648. */
  lemma {:induction false} AlphabetMeans()
    ensures Letters([0, 1, 25, 26, 27, 51, 52, 53, 61, 62, 63]) == "ABZabz019+/"
    ensures forall v: Sextet :: 0 < v < 26 || 26 < v < 52 || 52 < v < 62 ==>
            Letter(v) as int == Letter(v - 1) as int + 1
  {}

  /** The test vectors of section 10 of RFC 4648, without their padding. */
  lemma {:induction false} ShortTestVectors()
    ensures Encode([]) == "" && Encode([102]) == "Zg" && Encode([102, 111]) == "Zm8"
    ensures Encode([102, 111, 111]) == "Zm9v"
  {
    assert [102, 111, 111][3..] == [];
  }

  lemma {:induction false} LongTestVectors()
    ensures Encode([102, 111, 111, 98]) == "Zm9vYg" && Encode([102, 111, 111, 98, 97]) == "Zm9vYmE"
    ensures Encode([102, 111, 111, 98, 97, 114]) == "Zm9vYmFy"
  {
    assert [102, 111, 111, 98][3..] == [98] && [102, 111, 111, 98, 97][3..] == [98, 97];
    assert [102, 111, 111, 98, 97, 114][3..] == [98, 97, 114] && [98, 97, 114][3..] == [];
    assert Encode([98]) == "Yg" && Encode([98, 97]) == "YmE" && Encode([98, 97, 114]) == "YmFy";
  }

  // ---------- the encoded hash ----------

  const SCHEME := "pbkdf2-sha256"
  const COUNT := "210000"

  lemma {:induction false} CountIsIterations()
    ensures Integer64(COUNT) == Some(ITERATIONS) && '$' !in COUNT && '$' !in SCHEME
  {
    assert COUNT[..5] == "21000" && "21000"[..4] == "2100" && "2100"[..3] == "210" && "210"[..2] == "21"
           && "21"[..1] == "2" && "2"[..0] == "";
    assert Digits("2") == Some(2) && Digits("21") == Some(21) && Digits("210") == Some(210)
           && Digits("2100") == Some(2100);
  }

  function Encoded(salt: Bytes, key: Bytes): string {
    SCHEME + "$" + (COUNT + "$" + (Encode(salt) + "$" + Encode(key)))
  }

  lemma {:induction false} EncodedParts(salt: Bytes, key: Bytes)
    ensures Split(Encoded(salt, key), '$') == [SCHEME, COUNT, Encode(salt), Encode(key)]
  {
    CountIsIterations();
    DecodeEncode(salt);
    DecodeEncode(key);
    SplitNowhere(Encode(key), '$');
    SplitAt(Encode(salt), Encode(key), '$');
    SplitAt(COUNT, Encode(salt) + "$" + Encode(key), '$');
    SplitAt(SCHEME, COUNT + "$" + (Encode(salt) + "$" + Encode(key)), '$');
  }

  /** `salt` is what the random source gave, if it worked. */
  method Hash(prf: (Bytes, Bytes) -> Bytes, password: Bytes, salt: Option<Bytes>) returns (encoded: Option<string>)
    requires IsPrf(prf)
    ensures encoded == if salt == None then None
                       else Some("pbkdf2-sha256" + "$" + ("210000" + "$" + (Encode(salt.value) + "$"
                                   + Encode(Pbkdf2(prf, password, salt.value, 210000, 32)))))
  {
    if salt == None { return None; }
    var key := Pbkdf2Sha256(prf, password, salt.value, ITERATIONS, KEY_BYTES);
    encoded := Some(SCHEME + "$" + (COUNT + "$" + (Encode(salt.value) + "$" + Encode(key))));
  }

  /** What an encoded hash says: the iteration count, the salt and the key. */
  function Parsed(encoded: string): Option<(int, Bytes, Bytes)> {
    var parts := Split(encoded, '$');
    if |parts| != 4 || parts[0] != SCHEME then None
    else if Integer64(parts[1]) == None || Integer64(parts[1]).value < MIN_ITERATIONS then None
    else if Decode(parts[2]) == None || Decode(parts[3]) == None then None
    else Some((Integer64(parts[1]).value, Decode(parts[2]).value, Decode(parts[3]).value))
  }

  method Verify(prf: (Bytes, Bytes) -> Bytes, password: Bytes, encoded: string) returns (valid: bool)
    requires IsPrf(prf)
    ensures valid <==> Parsed(encoded).Some? &&
                       var (iterations, salt, key) := Parsed(encoded).value;
                       iterations >= 100000 && Pbkdf2(prf, password, salt, iterations, |key|) == key
  {
    var parts := Split(encoded, '$');
    if |parts| != 4 || parts[0] != SCHEME { return false; }
    var iterations := Integer64(parts[1]);
    if iterations == None || iterations.value < MIN_ITERATIONS { return false; }
    var salt := Decode(parts[2]);
    if salt == None { return false; }
    var want := Decode(parts[3]);
    if want == None { return false; }
    var got := Pbkdf2Sha256(prf, password, salt.value, iterations.value, |want.value|);
    valid := got == want.value;
  }

  /** A hash says exactly what it was made from. */
  lemma {:induction false} ParsedHash(salt: Bytes, key: Bytes)
    ensures Parsed(Encoded(salt, key)) == Some((ITERATIONS, salt, key))
  {
    EncodedParts(salt, key);
    CountIsIterations();
    DecodeEncode(salt);
    DecodeEncode(key);
  }

  /** A password is accepted against the hash of another one exactly when the two derive the same key. */
  method VerifyAfterHash(prf: (Bytes, Bytes) -> Bytes, password: Bytes, other: Bytes, salt: Bytes) returns (valid: bool)
    requires IsPrf(prf)
    ensures valid <==>
              Pbkdf2(prf, other, salt, ITERATIONS, KEY_BYTES) == Pbkdf2(prf, password, salt, ITERATIONS, KEY_BYTES)
  {
    var encoded := Hash(prf, password, Some(salt));
    ParsedHash(salt, Pbkdf2(prf, password, salt, ITERATIONS, KEY_BYTES));
    valid := Verify(prf, other, encoded.value);
  }
}

// Borsh codecs of strings, amounts, times and ids.
module Texts {
  import opened Options
  import opened Decimal
  import opened Borsh
  import opened Seqs

  predicate Continuation(s: Bytes, from: nat, count: nat) {
    from + count <= |s| && forall i :: from <= i < from + count ==> 0x80 <= s[i] <= 0xBF
  }

  // The bytes that the first character of s takes, or 0 if s does not begin with one:
  // the well-formed sequences of UTF-8 (RFC 3629, section 4).
  function CharLength(s: Bytes): (n: nat)
    ensures n <= |s| && n <= 4
  {
    if s == [] then 0
    else if s[0] <= 0x7F then 1
    else if 0xC2 <= s[0] <= 0xDF then if Continuation(s, 1, 1) then 2 else 0
    else if 0xE0 <= s[0] <= 0xEF then
      if Continuation(s, 1, 2) && (s[0] == 0xE0 ==> s[1] >= 0xA0) && (s[0] == 0xED ==> s[1] <= 0x9F) then 3 else 0
    else if 0xF0 <= s[0] <= 0xF4 then
      if Continuation(s, 1, 3) && (s[0] == 0xF0 ==> s[1] >= 0x90) && (s[0] == 0xF4 ==> s[1] <= 0x8F) then 4 else 0
    else 0
  }

  predicate IsUtf8(s: Bytes) {
    s == [] || (CharLength(s) > 0 && IsUtf8(s[CharLength(s)..]))
  }

  type Text = s: Bytes | IsUtf8(s)

  lemma {:induction false} AsciiIsUtf8(s: Bytes)
    requires forall i :: 0 <= i < |s| ==> s[i] <= 0x7F
    ensures IsUtf8(s)
  {
    if s != [] { AsciiIsUtf8(s[1..]); }
  }

  // A Unicode scalar value, and its bytes (RFC 3629, section 3).
  type Scalar = c: nat | c < 0xD800 || 0xE000 <= c <= 0x10FFFF

  function Utf8Char(c: Scalar): (s: Bytes)
    ensures 0 < |s| <= 4
  {
    if c < 0x80 then [c]
    else if c < 0x800 then [0xC0 + c / 0x40, 0x80 + c % 0x40]
    else if c < 0x1_0000 then [0xE0 + c / 0x1000, 0x80 + c / 0x40 % 0x40, 0x80 + c % 0x40]
    else [0xF0 + c / 0x4_0000, 0x80 + c / 0x1000 % 0x40, 0x80 + c / 0x40 % 0x40, 0x80 + c % 0x40]
  }

  function Utf8(cs: seq<Scalar>): Bytes {
    if cs == [] then [] else Utf8Char(cs[0]) + Utf8(cs[1..])
  }

  lemma LengthTwo(x: nat, y: nat, rest: Bytes)
    requires 2 <= x < 0x20 && y < 0x40
    ensures CharLength([0xC0 + x, 0x80 + y] + rest) == 2
  {
  }

  lemma LengthThree(x: nat, y: nat, z: nat, rest: Bytes)
    requires x < 0x10 && y < 0x40 && z < 0x40 && (x == 0 ==> y >= 0x20) && (x == 0xD ==> y < 0x20)
    ensures CharLength([0xE0 + x, 0x80 + y, 0x80 + z] + rest) == 3
  {
  }

  lemma LengthFour(x: nat, y: nat, z: nat, u: nat, rest: Bytes)
    requires x <= 4 && y < 0x40 && z < 0x40 && u < 0x40 && (x == 0 ==> y >= 0x10) && (x == 4 ==> y < 0x10)
    ensures CharLength([0xF0 + x, 0x80 + y, 0x80 + z, 0x80 + u] + rest) == 4
  {
  }

  lemma CharLengthOf(c: Scalar, rest: Bytes)
    ensures CharLength(Utf8Char(c) + rest) == |Utf8Char(c)|
  {
    if c >= 0x1_0000 {
      LengthFour(c / 0x4_0000, c / 0x1000 % 0x40, c / 0x40 % 0x40, c % 0x40, rest);
    } else if c >= 0x800 {
      LengthThree(c / 0x1000, c / 0x40 % 0x40, c % 0x40, rest);
    } else if c >= 0x80 {
      LengthTwo(c / 0x40, c % 0x40, rest);
    }
  }

  lemma TwoBytes(x: nat, y: nat) returns (c: Scalar)
    requires 2 <= x < 0x20 && y < 0x40
    ensures Utf8Char(c) == [0xC0 + x, 0x80 + y]
  {
    c := 0x40 * x + y;
  }

  lemma ThreeBytes(x: nat, y: nat, z: nat) returns (c: Scalar)
    requires x < 0x10 && y < 0x40 && z < 0x40 && (x == 0 ==> y >= 0x20) && (x == 0xD ==> y < 0x20)
    ensures Utf8Char(c) == [0xE0 + x, 0x80 + y, 0x80 + z]
  {
    c := 0x1000 * x + 0x40 * y + z;
    assert c / 0x40 == 0x40 * x + y;
  }

  lemma FourBytes(x: nat, y: nat, z: nat, u: nat) returns (c: Scalar)
    requires x <= 4 && y < 0x40 && z < 0x40 && u < 0x40 && (x == 0 ==> y >= 0x10) && (x == 4 ==> y < 0x10)
    ensures Utf8Char(c) == [0xF0 + x, 0x80 + y, 0x80 + z, 0x80 + u]
  {
    c := 0x4_0000 * x + 0x1000 * y + 0x40 * z + u;
    assert c / 0x40 == 0x1000 * x + 0x40 * y + z;
    assert c / 0x1000 == 0x40 * x + y;
  }

  // A first character is the encoding of a scalar value.
  lemma CharOf(s: Bytes) returns (c: Scalar)
    requires CharLength(s) > 0
    ensures Utf8Char(c) == s[..CharLength(s)]
  {
    match CharLength(s)
    case 1 => c := s[0];
    case 2 => c := TwoBytes(s[0] - 0xC0, s[1] - 0x80);
    case 3 => c := ThreeBytes(s[0] - 0xE0, s[1] - 0x80, s[2] - 0x80);
    case 4 => c := FourBytes(s[0] - 0xF0, s[1] - 0x80, s[2] - 0x80, s[3] - 0x80);
  }

  lemma {:induction false} EncodedIsUtf8(cs: seq<Scalar>)
    ensures IsUtf8(Utf8(cs))
  {
    if cs != [] {
      EncodedIsUtf8(cs[1..]);
      CharLengthOf(cs[0], Utf8(cs[1..]));
      assert Utf8(cs)[|Utf8Char(cs[0])|..] == Utf8(cs[1..]);
    }
  }

  lemma {:induction false} DecodedUtf8(s: Bytes) returns (cs: seq<Scalar>)
    requires IsUtf8(s)
    ensures Utf8(cs) == s
  {
    if s == [] {
      cs := [];
    } else {
      var n := CharLength(s);
      var c := CharOf(s);
      var rest := DecodedUtf8(s[n..]);
      cs := [c] + rest;
      assert cs[0] == c && cs[1..] == rest;
      assert s == s[..n] + s[n..];
    }
  }

  // Strings are exactly the encodings of sequences of scalar values: overlong forms,
  // surrogates and values beyond the last one are refused.
  lemma IsUtf8Iff(s: Bytes)
    ensures IsUtf8(s) <==> exists cs :: Utf8(cs) == s
  {
    if IsUtf8(s) { var cs := DecodedUtf8(s); }
    forall cs | Utf8(cs) == s ensures IsUtf8(s) { EncodedIsUtf8(cs); }
  }

  // A byte array is its bytes behind their number; a string must be UTF-8 as well.
  function EncodeBytes(s: Bytes): Option<Bytes> {
    if |s| > U32_MAX then None else Some(Little(|s|, 4) + s)
  }

  function DecodeBytes(s: Bytes): Option<(Bytes, Bytes)> {
    match DecodeFixed(4, s)
    case None => None
    case Some((n, rest)) => if n <= |rest| then Some((rest[..n], rest[n..])) else None
  }

  lemma BytesRoundTrip(s: Bytes, rest: Bytes)
    requires |s| <= U32_MAX
    ensures DecodeBytes(Little(|s|, 4) + s + rest) == Some((s, rest))
  {
    assert Power(4) == U32_MAX + 1;
    Assoc(Little(|s|, 4), s, rest);
    FixedRoundTrip(|s|, 4, s + rest);
    assert (s + rest)[..|s|] == s && (s + rest)[|s|..] == rest;
  }

  function ByteVec(): Codec<Bytes> {
    Codec((s: Bytes) => |s| <= U32_MAX, (s: Bytes) => EncodeBytes(s), (s: Bytes) => DecodeBytes(s))
  }

  lemma ByteVecLawful()
    ensures Lawful(ByteVec())
  {
    forall s: Bytes, rest: Bytes | ByteVec().encode(s).Some?
      ensures ByteVec().decode(ByteVec().encode(s).value + rest) == Some((s, rest))
    {
      BytesRoundTrip(s, rest);
    }
  }

  function TextOf(s: Bytes): Option<Text> {
    if IsUtf8(s) then Some(s) else None
  }

  function Str(): Codec<Text> {
    Via(ByteVec(), TextOf, (t: Text) => t)
  }

  lemma StrLawful()
    ensures Lawful(Str())
  {
    ByteVecLawful();
    ViaLawful(ByteVec(), TextOf, (t: Text) => t);
  }

  lemma StrInjective(t: Text, u: Text)
    requires |t| <= U32_MAX && |u| <= U32_MAX
    ensures EncodeBytes(t) == EncodeBytes(u) <==> t == u
  {
    BytesRoundTrip(t, []);
    BytesRoundTrip(u, []);
    assert EncodeBytes(t).value + [] == EncodeBytes(t).value && EncodeBytes(u).value + [] == EncodeBytes(u).value;
  }

  // Amounts travel as their decimal text.
  type BigInt = v: int | InRange(v, I128)

  function PrintBigInt(v: BigInt): Text {
    AsciiIsUtf8(Print(v));
    Print(v)
  }

  function ParseBigInt(t: Text): Option<BigInt> {
    match Parse(t, I128)
    case Ok(v) => Some(v)
    case Err(_) => None
  }

  function Tens(k: nat): nat {
    if k == 0 then 1 else 10 * Tens(k - 1)
  }

  lemma {:induction false} DigitsLength(n: nat, k: nat)
    requires 0 < k && n < Tens(k)
    ensures |Digits(n)| <= k
  {
    if n >= 10 { DigitsLength(n / 10, k - 1); }
  }

  lemma TensOf39()
    ensures Tens(39) == 1_000_000_000_000_000_000_000_000_000_000_000_000_000
  {
    assert Tens(13) == 10_000_000_000_000;
    assert Tens(26) == 100_000_000_000_000_000_000_000_000;
  }

  lemma PrintFits(v: BigInt)
    ensures |Print(v)| <= U32_MAX
  {
    TensOf39();
    var n: int := v;
    var magnitude: nat := if n < 0 then -n else n;
    assert InRange(n, I128);
    DigitsLength(magnitude, 39);
  }

  lemma AmountRoundTrip(v: BigInt)
    ensures ParseBigInt(PrintBigInt(v)) == Some(v) && |PrintBigInt(v)| <= U32_MAX
  {
    PrintParse(v, I128);
    PrintFits(v);
  }

  function Amount(): Codec<BigInt> {
    Via(Str(), ParseBigInt, PrintBigInt)
  }

  // Encoding an amount never fails.
  lemma AmountFits(v: BigInt)
    ensures Amount().fits(v)
  {
    AmountRoundTrip(v);
  }

  // Every i128, the least one included, survives its string form.
  lemma AmountLawful()
    ensures Lawful(Amount())
  {
    StrLawful();
    forall v: BigInt ensures ParseBigInt(PrintBigInt(v)) == Some(v) { AmountRoundTrip(v); }
    ViaLawful(Str(), ParseBigInt, PrintBigInt);
  }

  // An amount is read from exactly the strings that are an i128's decimal text, and
  // writing it again gives the same bytes exactly if that text was canonical.
  lemma AmountReads(t: Text, rest: Bytes)
    requires |t| <= U32_MAX
    ensures var r := Amount().decode(EncodeBytes(t).value + rest);
            && (r.Some? <==> WellFormed(t, I128) && InRange(ValueOf(t, I128), I128))
            && (r.Some? ==> r == Some((ValueOf(t, I128), rest)))
            && (r.Some? ==> (Amount().encode(r.value.0) == EncodeBytes(t) <==> Canonical(t)))
  {
    StrLawful();
    assert Str().encode(t) == EncodeBytes(t);
    assert Str().decode(Str().encode(t).value + rest) == Some((t, rest));
    ParseIff(t, I128);
    if Parse(t, I128).Ok? {
      var v := Parse(t, I128).value;
      ReprintIff(t, I128);
      PrintFits(v);
      StrInjective(PrintBigInt(v), t);
    }
  }

  // A time is its seconds and nanoseconds. A second in which a minute ends may be a
  // leap second and have up to two billion of them; the years run from -262143 to
  // 262142.
  datatype Stamp = Stamp(secs: I64, nanos: nat)

  const MIN_SECS: int := -8_334_601_228_800
  const MAX_SECS: int := 8_210_266_876_799

  predicate IsTime(t: Stamp) {
    && MIN_SECS <= t.secs <= MAX_SECS
    && t.nanos < if t.secs % 60 == 59 then 2_000_000_000 else 1_000_000_000
  }

  type DateTime = t: Stamp | IsTime(t) witness Stamp(0, 0)

  function FromTimestamp(p: (I64, nat)): Option<DateTime> {
    if IsTime(Stamp(p.0, p.1)) then Some(Stamp(p.0, p.1)) else None
  }

  function Timestamp(): Codec<DateTime> {
    Via(PairOf(Signed64(), Fixed(4)), FromTimestamp, (t: DateTime) => (t.secs, t.nanos))
  }

  lemma TimestampFits(t: DateTime)
    ensures Timestamp().fits(t)
  {
    Signed64Fits(t.secs);
    assert Power(4) == U32_MAX + 1;
    assert PairOf(Signed64(), Fixed(4)).fits((t.secs, t.nanos));
  }

  // Every time survives, leap seconds and times before 1970 included.
  lemma TimestampLawful()
    ensures Lawful(Timestamp())
  {
    Signed64Lawful();
    FixedLawful(4);
    PairLawful(Signed64(), Fixed(4));
    ViaLawful(PairOf(Signed64(), Fixed(4)), FromTimestamp, (t: DateTime) => (t.secs, t.nanos));
  }

  // What is not a time is refused.
  lemma TimestampReads(secs: I64, nanos: nat, rest: Bytes)
    requires nanos <= U32_MAX
    ensures var encoded := PairOf(Signed64(), Fixed(4)).encode((secs, nanos));
            && encoded.Some?
            && Timestamp().decode(encoded.value + rest) ==
               if -8_334_601_228_800 <= secs <= 8_210_266_876_799
                  && nanos < if secs % 60 == 59 then 2_000_000_000 else 1_000_000_000
               then Some((Stamp(secs, nanos), rest)) else None
  {
    PairReads(secs, nanos, rest);
  }

  lemma PairReads(secs: I64, nanos: nat, rest: Bytes)
    requires nanos <= U32_MAX
    ensures var encoded := PairOf(Signed64(), Fixed(4)).encode((secs, nanos));
            && encoded.Some?
            && Timestamp().decode(encoded.value + rest) ==
               if IsTime(Stamp(secs, nanos)) then Some((Stamp(secs, nanos), rest)) else None
  {
    Signed64Lawful();
    FixedLawful(4);
    PairLawful(Signed64(), Fixed(4));
    var pair := PairOf(Signed64(), Fixed(4));
    assert Power(4) == U32_MAX + 1;
    Signed64Fits(secs);
    EncodesIff(pair, (secs, nanos));
    assert pair.decode(pair.encode((secs, nanos)).value + rest) == Some(((secs, nanos), rest));
  }

  // A task's id: sixteen bytes, shown as hyphenated lower-case hexadecimal.
  type Uuid = s: Bytes | |s| == 16 witness [0, 0, 0, 0, 0, 0, 0, 0, 0, 0, 0, 0, 0, 0, 0, 0]

  function Id(): Codec<Uuid> {
    Codec((u: Uuid) => true, (u: Uuid) => Some(u),
          (s: Bytes) => if |s| < 16 then None else Some((s[..16], s[16..])))
  }

  lemma IdLawful()
    ensures Lawful(Id())
  {
    forall u: Uuid, rest: Bytes ensures Id().decode(Id().encode(u).value + rest) == Some((u, rest)) {
      assert (u + rest)[..16] == u && (u + rest)[16..] == rest;
    }
  }

  function HexDigit(n: nat): Byte
    requires n < 16
  {
    if n < 10 then 48 + n else 87 + n
  }

  function Hex(s: Bytes): (h: Bytes)
    ensures |h| == 2 * |s|
    ensures forall i :: 0 <= i < |h| ==> h[i] <= 0x7F
  {
    if s == [] then [] else [HexDigit(s[0] / 16), HexDigit(s[0] % 16)] + Hex(s[1..])
  }

  lemma {:induction false} HexInjective(s: Bytes, t: Bytes)
    requires Hex(s) == Hex(t)
    ensures s == t
  {
    if s != [] {
      assert Hex(s)[2..] == Hex(s[1..]) && Hex(t)[2..] == Hex(t[1..]);
      HexInjective(s[1..], t[1..]);
      assert s[0] / 16 == t[0] / 16 by { assert Hex(s)[0] == Hex(t)[0]; }
      assert s[0] % 16 == t[0] % 16 by { assert Hex(s)[1] == Hex(t)[1]; }
      assert s == [s[0]] + s[1..] && t == [t[0]] + t[1..];
    }
  }

  // The groups of 8, 4, 4, 4 and 12 digits.
  function Dashed(s: Bytes, t: Bytes): Bytes {
    Hex(s) + [DASH] + t
  }

  function UuidText(u: Uuid): Text {
    var text := Dashed(u[..4], Dashed(u[4..6], Dashed(u[6..8], Dashed(u[8..10], Hex(u[10..])))));
    AsciiIsUtf8(text);
    text
  }

  lemma {:induction false} HexAt(s: Bytes, k: nat)
    requires k < |s|
    ensures Hex(s)[2 * k] == "0123456789abcdef"[s[k] / 16] as int
    ensures Hex(s)[2 * k + 1] == "0123456789abcdef"[s[k] % 16] as int
  {
    if k == 0 {
      HexDigitIs(s[0] / 16);
      HexDigitIs(s[0] % 16);
    } else {
      HexAt(s[1..], k - 1);
      HexBehind(s, 2 * (k - 1));
      HexBehind(s, 2 * (k - 1) + 1);
      assert s[1..][k - 1] == s[k];
    }
  }

  lemma HexBehind(s: Bytes, i: nat)
    requires s != [] && i < |Hex(s[1..])|
    ensures i + 2 < |Hex(s)| && Hex(s)[i + 2] == Hex(s[1..])[i]
  {
    Behind([HexDigit(s[0] / 16), HexDigit(s[0] % 16)], Hex(s[1..]), i);
  }

  lemma Behind(two: Bytes, others: Bytes, i: nat)
    requires |two| == 2 && i < |others|
    ensures (two + others)[i + 2] == others[i]
  {
  }

  lemma HexDigitIs(n: nat)
    requires n < 16
    ensures HexDigit(n) == "0123456789abcdef"[n] as int
  {
  }

  // A group of the text, from position at on, shows the id's bytes from position from on.
  lemma GroupAt(u: Uuid, text: Bytes, from: nat, to: nat, at: nat, k: nat)
    requires from <= k < to <= 16 && at + 2 * (to - from) <= |text|
    requires text[at..at + 2 * (to - from)] == Hex(u[from..to])
    ensures text[at + 2 * (k - from)] == "0123456789abcdef"[u[k] / 16] as int
    ensures text[at + 2 * (k - from) + 1] == "0123456789abcdef"[u[k] % 16] as int
  {
    HexAt(u[from..to], k - from);
    var group := text[at..at + 2 * (to - from)];
    assert group[2 * (k - from)] == text[at + 2 * (k - from)];
    assert group[2 * (k - from) + 1] == text[at + 2 * (k - from) + 1];
  }

  lemma UuidGroups(u: Uuid)
    ensures var t := UuidText(u);
            && |t| == 36 && t[8] == t[13] == t[18] == t[23] == '-' as int
            && t[0..8] == Hex(u[0..4]) && t[9..13] == Hex(u[4..6]) && t[14..18] == Hex(u[6..8])
            && t[19..23] == Hex(u[8..10]) && t[24..36] == Hex(u[10..16])
  {
    assert u[10..] == u[10..16];
    var t4 := Hex(u[10..]);
    var t3 := Dashed(u[8..10], t4);
    var t2 := Dashed(u[6..8], t3);
    var t1 := Dashed(u[4..6], t2);
    var t := UuidText(u);
    assert t[9..] == t1 && t1[5..] == t2 && t2[5..] == t3 && t3[5..] == t4;
    assert t[14..] == t2 && t[19..] == t3 && t[24..] == t4;
    assert t[9..13] == t1[..4] && t[14..18] == t2[..4] && t[19..23] == t3[..4];
    assert t[13] == t1[4] && t[18] == t2[4] && t[23] == t3[4];
  }

  predicate ShowsByte(text: Bytes, at: nat, b: Byte) {
    && at + 1 < |text| && text[at] == "0123456789abcdef"[b / 16] as int
    && text[at + 1] == "0123456789abcdef"[b % 16] as int
  }

  lemma FrontDigits(u: Uuid, k: nat)
    requires k < 8
    ensures ShowsByte(UuidText(u), 2 * k + if k < 4 then 0 else if k < 6 then 1 else 2, u[k])
  {
    var t := UuidText(u);
    UuidGroups(u);
    if k < 4 {
      GroupAt(u, t, 0, 4, 0, k);
    } else if k < 6 {
      GroupAt(u, t, 4, 6, 9, k);
    } else {
      GroupAt(u, t, 6, 8, 14, k);
    }
  }

  lemma BackDigits(u: Uuid, k: nat)
    requires 8 <= k < 16
    ensures ShowsByte(UuidText(u), 2 * k + if k < 10 then 3 else 4, u[k])
  {
    var t := UuidText(u);
    UuidGroups(u);
    if k < 10 {
      GroupAt(u, t, 8, 10, 19, k);
    } else {
      GroupAt(u, t, 10, 16, 24, k);
    }
  }

  // An id's text has 36 characters: 32 lower-case hexadecimal digits, two for each byte,
  // and dashes behind the fourth, sixth, eighth and tenth byte.
  lemma UuidTextIs(u: Uuid, k: nat)
    requires k < 16
    ensures |UuidText(u)| == 36
    ensures UuidText(u)[8] == UuidText(u)[13] == UuidText(u)[18] == UuidText(u)[23] == '-' as int
    ensures var dashes := if k < 4 then 0 else if k < 6 then 1 else if k < 8 then 2 else if k < 10 then 3 else 4;
      && UuidText(u)[2 * k + dashes] == "0123456789abcdef"[u[k] / 16] as int
      && UuidText(u)[2 * k + dashes + 1] == "0123456789abcdef"[u[k] % 16] as int
  {
    UuidGroups(u);
    if k < 8 { FrontDigits(u, k); } else { BackDigits(u, k); }
  }

  lemma DashedInjective(s: Bytes, t: Bytes, s': Bytes, t': Bytes)
    requires |s| == |s'| && Dashed(s, t) == Dashed(s', t')
    ensures s == s' && t == t'
  {
    var n := 2 * |s|;
    assert Dashed(s, t)[..n] == Hex(s) && Dashed(s', t')[..n] == Hex(s');
    assert Dashed(s, t)[n + 1..] == t && Dashed(s', t')[n + 1..] == t';
    HexInjective(s, s');
  }

  // Different tasks have different id texts.
  lemma UuidTextInjective(u: Uuid, v: Uuid)
    requires UuidText(u) == UuidText(v)
    ensures u == v
  {
    DashedInjective(u[..4], Dashed(u[4..6], Dashed(u[6..8], Dashed(u[8..10], Hex(u[10..])))),
                    v[..4], Dashed(v[4..6], Dashed(v[6..8], Dashed(v[8..10], Hex(v[10..])))));
    DashedInjective(u[4..6], Dashed(u[6..8], Dashed(u[8..10], Hex(u[10..]))),
                    v[4..6], Dashed(v[6..8], Dashed(v[8..10], Hex(v[10..]))));
    DashedInjective(u[6..8], Dashed(u[8..10], Hex(u[10..])), v[6..8], Dashed(v[8..10], Hex(v[10..])));
    DashedInjective(u[8..10], Hex(u[10..]), v[8..10], Hex(v[10..]));
    HexInjective(u[10..], v[10..]);
    UuidParts(u);
    UuidParts(v);
  }

  lemma UuidParts(u: Uuid)
    ensures u == u[..4] + (u[4..6] + (u[6..8] + (u[8..10] + u[10..])))
  {
  }
}

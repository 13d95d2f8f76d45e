// Borsh encodings, as self-delimiting codecs that compose.
module Borsh {
  import opened Options
  import opened Decimal
  import opened Seqs

  const U32_MAX: nat := 0xFFFF_FFFF

  // Encoding fails on a value that does not fit: one with a length over the largest u32.
  datatype Codec<!T> = Codec(fits: T -> bool, encode: T -> Option<Bytes>, decode: Bytes -> Option<(T, Bytes)>)

  // Encoding succeeds exactly on what fits. Decoding an encoded value gives it back and
  // leaves exactly the bytes behind it.
  ghost predicate Lawful<T(!new)>(c: Codec<T>) {
    && (forall v: T :: c.encode(v).Some? <==> c.fits(v))
    && (forall v: T, rest: Bytes :: c.encode(v).Some? ==> c.decode(c.encode(v).value + rest) == Some((v, rest)))
  }

  lemma EncodesIff<T(!new)>(c: Codec<T>, v: T)
    requires Lawful(c)
    ensures c.encode(v).Some? <==> c.fits(v)
  {
  }

  // One encoding after another, if both are there.
  function Join(a: Option<Bytes>, b: Option<Bytes>): Option<Bytes> {
    if a.Some? && b.Some? then Some(a.value + b.value) else None
  }

  // The decoded value and what is left, with the value changed.
  function Mapped<A, B>(r: Option<(A, Bytes)>, f: A -> Option<B>): Option<(B, Bytes)> {
    match r
    case None => None
    case Some((a, rest)) =>
      match f(a)
      case None => None
      case Some(b) => Some((b, rest))
  }

  // Little-endian numbers of a fixed width.
  function Power(width: nat): nat {
    if width == 0 then 1 else 256 * Power(width - 1)
  }

  function Little(n: nat, width: nat): (s: Bytes)
    ensures |s| == width
  {
    if width == 0 then [] else [n % 256] + Little(n / 256, width - 1)
  }

  function FromLittle(s: Bytes): nat {
    if s == [] then 0 else s[0] + 256 * FromLittle(s[1..])
  }

  lemma {:induction false} LittleRoundTrip(n: nat, width: nat)
    requires n < Power(width)
    ensures FromLittle(Little(n, width)) == n
  {
    if width > 0 {
      LittleRoundTrip(n / 256, width - 1);
      assert Little(n, width)[1..] == Little(n / 256, width - 1);
    }
  }

  function DecodeFixed(width: nat, s: Bytes): Option<(nat, Bytes)> {
    if |s| < width then None else Some((FromLittle(s[..width]), s[width..]))
  }

  lemma FixedRoundTrip(n: nat, width: nat, rest: Bytes)
    requires n < Power(width)
    ensures DecodeFixed(width, Little(n, width) + rest) == Some((n, rest))
  {
    LittleRoundTrip(n, width);
    assert (Little(n, width) + rest)[..width] == Little(n, width);
    assert (Little(n, width) + rest)[width..] == rest;
  }

  function Fixed(width: nat): Codec<nat> {
    Codec((n: nat) => n < Power(width), (n: nat) => if n < Power(width) then Some(Little(n, width)) else None,
          (s: Bytes) => DecodeFixed(width, s))
  }

  lemma FixedLawful(width: nat)
    ensures Lawful(Fixed(width))
  {
    forall n: nat, rest: Bytes | Fixed(width).encode(n).Some?
      ensures Fixed(width).decode(Fixed(width).encode(n).value + rest) == Some((n, rest))
    {
      FixedRoundTrip(n, width, rest);
    }
  }

  // Changes a codec's values; reading can fail.
  function Via<A, B>(c: Codec<A>, read: A -> Option<B>, write: B -> A): Codec<B> {
    Codec((b: B) => c.fits(write(b)), (b: B) => c.encode(write(b)), (s: Bytes) => Mapped(c.decode(s), read))
  }

  lemma ViaLawful<A(!new), B(!new)>(c: Codec<A>, read: A -> Option<B>, write: B -> A)
    requires Lawful(c) && forall b: B :: read(write(b)) == Some(b)
    ensures Lawful(Via(c, read, write))
  {
    var via := Via(c, read, write);
    forall b: B, rest: Bytes | via.encode(b).Some? ensures via.decode(via.encode(b).value + rest) == Some((b, rest)) {
      assert c.decode(c.encode(write(b)).value + rest) == Some((write(b), rest));
    }
  }

  // Two's complement.
  type I64 = v: int | -0x8000_0000_0000_0000 <= v < 0x8000_0000_0000_0000

  type U64 = n: nat | n <= 0xFFFF_FFFF_FFFF_FFFF

  function I64Of(n: nat): Option<I64> {
    if n < 0x8000_0000_0000_0000 then Some(n)
    else if n < 0x1_0000_0000_0000_0000 then Some(n - 0x1_0000_0000_0000_0000)
    else None
  }

  function TwosComplement(v: I64): nat {
    if v < 0 then v + 0x1_0000_0000_0000_0000 else v
  }

  function Signed64(): Codec<I64> {
    Via(Fixed(8), I64Of, TwosComplement)
  }

  lemma Signed64Fits(v: I64)
    ensures Signed64().fits(v)
  {
    assert Power(8) == 0x1_0000_0000_0000_0000;
    assert Signed64().fits(v) == Fixed(8).fits(TwosComplement(v));
  }

  lemma Signed64Lawful()
    ensures Lawful(Signed64())
  {
    FixedLawful(8);
    ViaLawful(Fixed(8), I64Of, TwosComplement);
  }

  function U64Of(n: nat): Option<U64> {
    if n <= 0xFFFF_FFFF_FFFF_FFFF then Some(n) else None
  }

  function Unsigned64(): Codec<U64> {
    Via(Fixed(8), U64Of, (n: U64) => n)
  }

  lemma Unsigned64Fits(n: U64)
    ensures Unsigned64().fits(n)
  {
    assert Power(8) == 0x1_0000_0000_0000_0000;
  }

  lemma Unsigned64Lawful()
    ensures Lawful(Unsigned64())
  {
    FixedLawful(8);
    ViaLawful(Fixed(8), U64Of, (n: U64) => n);
  }

  // One after the other.
  function DecodePair<A, B>(a: Codec<A>, b: Codec<B>, s: Bytes): Option<(A, B, Bytes)> {
    match a.decode(s)
    case None => None
    case Some((x, rest)) =>
      match b.decode(rest)
      case None => None
      case Some((y, rest')) => Some((x, y, rest'))
  }

  lemma PairRoundTrip<A(!new), B(!new)>(a: Codec<A>, b: Codec<B>, x: A, y: B, rest: Bytes)
    requires Lawful(a) && Lawful(b) && a.encode(x).Some? && b.encode(y).Some?
    ensures DecodePair(a, b, a.encode(x).value + b.encode(y).value + rest) == Some((x, y, rest))
  {
    Assoc(a.encode(x).value, b.encode(y).value, rest);
    assert a.decode(a.encode(x).value + (b.encode(y).value + rest)) == Some((x, b.encode(y).value + rest));
    assert b.decode(b.encode(y).value + rest) == Some((y, rest));
  }

  function PairOf<A, B>(a: Codec<A>, b: Codec<B>): Codec<(A, B)> {
    Codec((v: (A, B)) => a.fits(v.0) && b.fits(v.1), (v: (A, B)) => Join(a.encode(v.0), b.encode(v.1)),
          (s: Bytes) => match DecodePair(a, b, s)
                        case None => None
                        case Some((x, y, rest)) => Some(((x, y), rest)))
  }

  lemma PairLawful<A(!new), B(!new)>(a: Codec<A>, b: Codec<B>)
    requires Lawful(a) && Lawful(b)
    ensures Lawful(PairOf(a, b))
  {
    var c := PairOf(a, b);
    forall v: (A, B) ensures c.encode(v).Some? <==> c.fits(v) {
      EncodesIff(a, v.0);
      EncodesIff(b, v.1);
    }
    forall v: (A, B), rest: Bytes | c.encode(v).Some? ensures c.decode(c.encode(v).value + rest) == Some((v, rest)) {
      PairRoundTrip(a, b, v.0, v.1, rest);
    }
  }

  function EncodeTriple<A, B, C>(a: Codec<A>, b: Codec<B>, c: Codec<C>, v: (A, B, C)): Option<Bytes> {
    Join(a.encode(v.0), Join(b.encode(v.1), c.encode(v.2)))
  }

  function DecodeTriple<A, B, C>(a: Codec<A>, b: Codec<B>, c: Codec<C>, s: Bytes): Option<((A, B, C), Bytes)> {
    match DecodePair(a, PairOf(b, c), s)
    case None => None
    case Some((x, y, rest)) => Some(((x, y.0, y.1), rest))
  }

  function TripleOf<A, B, C>(a: Codec<A>, b: Codec<B>, c: Codec<C>): Codec<(A, B, C)> {
    Codec((v: (A, B, C)) => a.fits(v.0) && b.fits(v.1) && c.fits(v.2),
          (v: (A, B, C)) => EncodeTriple(a, b, c, v), (s: Bytes) => DecodeTriple(a, b, c, s))
  }

  lemma TripleLawful<A(!new), B(!new), C(!new)>(a: Codec<A>, b: Codec<B>, c: Codec<C>)
    requires Lawful(a) && Lawful(b) && Lawful(c)
    ensures Lawful(TripleOf(a, b, c))
  {
    PairLawful(b, c);
    var t, others := TripleOf(a, b, c), PairOf(b, c);
    forall v: (A, B, C) ensures t.encode(v).Some? <==> t.fits(v) {
      EncodesIff(a, v.0);
      EncodesIff(others, (v.1, v.2));
    }
    forall v: (A, B, C), rest: Bytes | t.encode(v).Some? ensures t.decode(t.encode(v).value + rest) == Some((v, rest)) {
      assert t.encode(v) == Join(a.encode(v.0), others.encode((v.1, v.2)));
      PairRoundTrip(a, others, v.0, (v.1, v.2), rest);
    }
  }

  function EncodeFour<A, B, C, D>(a: Codec<A>, b: Codec<B>, c: Codec<C>, d: Codec<D>, v: (A, B, C, D)): Option<Bytes> {
    Join(a.encode(v.0), EncodeTriple(b, c, d, (v.1, v.2, v.3)))
  }

  function DecodeFour<A, B, C, D>(a: Codec<A>, b: Codec<B>, c: Codec<C>, d: Codec<D>, s: Bytes)
    : Option<((A, B, C, D), Bytes)>
  {
    match DecodePair(a, TripleOf(b, c, d), s)
    case None => None
    case Some((x, y, rest)) => Some(((x, y.0, y.1, y.2), rest))
  }

  function FourOf<A, B, C, D>(a: Codec<A>, b: Codec<B>, c: Codec<C>, d: Codec<D>): Codec<(A, B, C, D)> {
    Codec((v: (A, B, C, D)) => a.fits(v.0) && b.fits(v.1) && c.fits(v.2) && d.fits(v.3),
          (v: (A, B, C, D)) => EncodeFour(a, b, c, d, v), (s: Bytes) => DecodeFour(a, b, c, d, s))
  }

  lemma FourLawful<A(!new), B(!new), C(!new), D(!new)>(a: Codec<A>, b: Codec<B>, c: Codec<C>, d: Codec<D>)
    requires Lawful(a) && Lawful(b) && Lawful(c) && Lawful(d)
    ensures Lawful(FourOf(a, b, c, d))
  {
    TripleLawful(b, c, d);
    var t, others := FourOf(a, b, c, d), TripleOf(b, c, d);
    forall v: (A, B, C, D) ensures t.encode(v).Some? <==> t.fits(v) {
      EncodesIff(a, v.0);
      EncodesIff(others, (v.1, v.2, v.3));
    }
    forall v: (A, B, C, D), rest: Bytes | t.encode(v).Some?
      ensures t.decode(t.encode(v).value + rest) == Some((v, rest))
    {
      assert t.encode(v) == Join(a.encode(v.0), others.encode((v.1, v.2, v.3)));
      PairRoundTrip(a, others, v.0, (v.1, v.2, v.3), rest);
    }
  }

  function EncodeFive<A, B, C, D, E>(a: Codec<A>, b: Codec<B>, c: Codec<C>, d: Codec<D>, e: Codec<E>,
                                     v: (A, B, C, D, E))
    : Option<Bytes>
  {
    Join(a.encode(v.0), EncodeFour(b, c, d, e, (v.1, v.2, v.3, v.4)))
  }

  function DecodeFive<A, B, C, D, E>(a: Codec<A>, b: Codec<B>, c: Codec<C>, d: Codec<D>, e: Codec<E>, s: Bytes)
    : Option<((A, B, C, D, E), Bytes)>
  {
    match DecodePair(a, FourOf(b, c, d, e), s)
    case None => None
    case Some((x, y, rest)) => Some(((x, y.0, y.1, y.2, y.3), rest))
  }

  function FiveOf<A, B, C, D, E>(a: Codec<A>, b: Codec<B>, c: Codec<C>, d: Codec<D>, e: Codec<E>)
    : Codec<(A, B, C, D, E)>
  {
    Codec((v: (A, B, C, D, E)) => a.fits(v.0) && b.fits(v.1) && c.fits(v.2) && d.fits(v.3) && e.fits(v.4),
          (v: (A, B, C, D, E)) => EncodeFive(a, b, c, d, e, v), (s: Bytes) => DecodeFive(a, b, c, d, e, s))
  }

  lemma FiveLawful<A(!new), B(!new), C(!new), D(!new), E(!new)>(
    a: Codec<A>, b: Codec<B>, c: Codec<C>, d: Codec<D>, e: Codec<E>)
    requires Lawful(a) && Lawful(b) && Lawful(c) && Lawful(d) && Lawful(e)
    ensures Lawful(FiveOf(a, b, c, d, e))
  {
    FourLawful(b, c, d, e);
    var t, others := FiveOf(a, b, c, d, e), FourOf(b, c, d, e);
    forall v: (A, B, C, D, E) ensures t.encode(v).Some? <==> t.fits(v) {
      EncodesIff(a, v.0);
      EncodesIff(others, (v.1, v.2, v.3, v.4));
    }
    forall v: (A, B, C, D, E), rest: Bytes | t.encode(v).Some?
      ensures t.decode(t.encode(v).value + rest) == Some((v, rest))
    {
      assert t.encode(v) == Join(a.encode(v.0), others.encode((v.1, v.2, v.3, v.4)));
      PairRoundTrip(a, others, v.0, (v.1, v.2, v.3, v.4), rest);
    }
  }

  // The empty struct.
  function Unit(): Codec<()> {
    Codec((v: ()) => true, (v: ()) => Some([]), (s: Bytes) => Some(((), s)))
  }

  lemma UnitLawful()
    ensures Lawful(Unit())
  {
    forall v: (), rest: Bytes ensures Unit().decode(Unit().encode(v).value + rest) == Some((v, rest)) {
      assert v == () && [] + rest == rest;
    }
  }

  // A flag byte before the value; only 0 and 1 are flags.
  function EncodeOption<T>(c: Codec<T>, v: Option<T>): Option<Bytes> {
    if v.None? then Some([0]) else Join(Some([1]), c.encode(v.value))
  }

  function DecodeOption<T>(c: Codec<T>, s: Bytes): Option<(Option<T>, Bytes)> {
    if s == [] then None
    else if s[0] == 0 then Some((None, s[1..]))
    else if s[0] == 1 then Mapped(c.decode(s[1..]), (v: T) => Some(Some(v)))
    else None
  }

  lemma OptionRoundTrip<T(!new)>(c: Codec<T>, v: Option<T>, rest: Bytes)
    requires Lawful(c) && EncodeOption(c, v).Some?
    ensures DecodeOption(c, EncodeOption(c, v).value + rest) == Some((v, rest))
  {
    var s := EncodeOption(c, v).value + rest;
    if v.None? {
      assert s[1..] == rest;
    } else {
      assert s[1..] == c.encode(v.value).value + rest;
    }
  }

  function OptionOf<T>(c: Codec<T>): Codec<Option<T>> {
    Codec((v: Option<T>) => v.None? || c.fits(v.value), (v: Option<T>) => EncodeOption(c, v),
          (s: Bytes) => DecodeOption(c, s))
  }

  lemma OptionLawful<T(!new)>(c: Codec<T>)
    requires Lawful(c)
    ensures Lawful(OptionOf(c))
  {
    var o := OptionOf(c);
    forall v: Option<T>, rest: Bytes | o.encode(v).Some? ensures o.decode(o.encode(v).value + rest) == Some((v, rest)) {
      OptionRoundTrip(c, v, rest);
    }
  }

  function FlagOf(n: nat): Option<bool> {
    if n == 0 then Some(false) else if n == 1 then Some(true) else None
  }

  function Flag(): Codec<bool> {
    Via(Fixed(1), FlagOf, (b: bool) => if b then 1 else 0)
  }

  lemma FlagLawful()
    ensures Lawful(Flag())
  {
    FixedLawful(1);
    ViaLawful(Fixed(1), FlagOf, (b: bool) => if b then 1 else 0);
  }

  // A length before the elements.
  predicate AllFit<T>(c: Codec<T>, vs: seq<T>) {
    forall i :: 0 <= i < |vs| ==> c.fits(vs[i])
  }

  function EncodeAll<T>(c: Codec<T>, vs: seq<T>): Option<Bytes> {
    if vs == [] then Some([]) else Join(c.encode(vs[0]), EncodeAll(c, vs[1..]))
  }

  function DecodeAll<T>(c: Codec<T>, n: nat, s: Bytes): Option<(seq<T>, Bytes)> {
    if n == 0 then Some(([], s))
    else
      match c.decode(s)
      case None => None
      case Some((v, rest)) => Mapped(DecodeAll(c, n - 1, rest), (vs: seq<T>) => Some([v] + vs))
  }

  lemma {:induction false} AllRoundTrip<T(!new)>(c: Codec<T>, vs: seq<T>, rest: Bytes)
    requires Lawful(c) && EncodeAll(c, vs).Some?
    ensures DecodeAll(c, |vs|, EncodeAll(c, vs).value + rest) == Some((vs, rest))
  {
    if vs == [] {
      assert EncodeAll(c, vs).value + rest == rest;
    } else {
      var first, others := c.encode(vs[0]).value, EncodeAll(c, vs[1..]).value;
      AllRoundTrip(c, vs[1..], rest);
      Assoc(first, others, rest);
      assert c.decode(first + (others + rest)) == Some((vs[0], others + rest));
      assert [vs[0]] + vs[1..] == vs;
    }
  }

  lemma {:induction false} AllEncodeIff<T(!new)>(c: Codec<T>, vs: seq<T>)
    requires Lawful(c)
    ensures EncodeAll(c, vs).Some? <==> AllFit(c, vs)
  {
    if vs != [] {
      AllEncodeIff(c, vs[1..]);
      assert forall i :: 0 < i < |vs| ==> vs[i] == vs[1..][i - 1];
    }
  }

  function EncodeVec<T>(c: Codec<T>, vs: seq<T>): Option<Bytes> {
    if |vs| > U32_MAX then None else Join(Some(Little(|vs|, 4)), EncodeAll(c, vs))
  }

  function DecodeVec<T>(c: Codec<T>, s: Bytes): Option<(seq<T>, Bytes)> {
    match DecodeFixed(4, s)
    case None => None
    case Some((n, rest)) => DecodeAll(c, n, rest)
  }

  lemma VecRoundTrip<T(!new)>(c: Codec<T>, vs: seq<T>, rest: Bytes)
    requires Lawful(c) && EncodeVec(c, vs).Some?
    ensures DecodeVec(c, EncodeVec(c, vs).value + rest) == Some((vs, rest))
  {
    var items := EncodeAll(c, vs).value;
    assert Power(4) == U32_MAX + 1;
    Assoc(Little(|vs|, 4), items, rest);
    FixedRoundTrip(|vs|, 4, items + rest);
    AllRoundTrip(c, vs, rest);
  }

  function VecOf<T>(c: Codec<T>): Codec<seq<T>> {
    Codec((vs: seq<T>) => |vs| <= U32_MAX && AllFit(c, vs), (vs: seq<T>) => EncodeVec(c, vs),
          (s: Bytes) => DecodeVec(c, s))
  }

  lemma VecLawful<T(!new)>(c: Codec<T>)
    requires Lawful(c)
    ensures Lawful(VecOf(c))
  {
    var vec := VecOf(c);
    forall vs: seq<T> ensures vec.encode(vs).Some? <==> vec.fits(vs) { AllEncodeIff(c, vs); }
    forall vs: seq<T>, rest: Bytes | vec.encode(vs).Some?
      ensures vec.decode(vec.encode(vs).value + rest) == Some((vs, rest))
    {
      VecRoundTrip(c, vs, rest);
    }
  }

  // An enum's tag before a variant's fields.
  function Tag<T>(tag: Byte, c: Codec<T>, v: T): Option<Bytes> {
    Join(Some([tag]), c.encode(v))
  }

  lemma TagRoundTrip<T(!new)>(tag: Byte, c: Codec<T>, v: T, rest: Bytes)
    requires Lawful(c) && Tag(tag, c, v).Some?
    ensures var s := Tag(tag, c, v).value + rest; s[0] == tag && c.decode(s[1..]) == Some((v, rest))
  {
    var s := Tag(tag, c, v).value + rest;
    assert s[1..] == c.encode(v).value + rest;
  }
}

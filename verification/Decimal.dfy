// Integers as decimal text, printed and parsed as Rust's formatting and from_str do.
module Decimal {
  import opened Options
  import opened Seqs

  type Byte = b: nat | b < 256

  type Bytes = seq<Byte>

  const PLUS: Byte := 43
  const DASH: Byte := 45

  datatype ParseIntError = Empty | InvalidDigit | PosOverflow | NegOverflow

  // An integer type: its bounds. Only a signed one takes a leading minus.
  datatype Width = Width(low: int, high: int, signed: bool)

  predicate IsWidth(w: Width) {
    w.low <= 0 < w.high && (w.signed <==> w.low < 0)
  }

  const I128 := Width(-0x8000_0000_0000_0000_0000_0000_0000_0000, 0x7FFF_FFFF_FFFF_FFFF_FFFF_FFFF_FFFF_FFFF, true)
  const USIZE := Width(0, 0xFFFF_FFFF_FFFF_FFFF, false)

  predicate IsDigit(b: Byte) {
    48 <= b <= 57
  }

  predicate AllDigits(s: Bytes) {
    forall i :: 0 <= i < |s| ==> IsDigit(s[i])
  }

  // What digits mean, most significant first.
  function Meaning(s: Bytes): nat
    requires AllDigits(s)
  {
    if s == [] then 0 else 10 * Meaning(s[..|s| - 1]) + s[|s| - 1] - 48
  }

  function Digits(n: nat): (s: Bytes)
    ensures s != [] && AllDigits(s) && Meaning(s) == n
    ensures s[0] == 48 <==> n == 0
    ensures n == 0 ==> s == [48]
  {
    if n < 10 then [n + 48]
    else
      var front := Digits(n / 10);
      var s := front + [n % 10 + 48];
      assert s[..|s| - 1] == front;
      s
  }

  function Print(v: int): Bytes {
    if v < 0 then [DASH] + Digits(-v) else Digits(v)
  }

  predicate InRange(v: int, w: Width) {
    w.low <= v <= w.high
  }

  // The digit loop: multiply, then add or, behind a minus, subtract, both checked.
  function DigitLoop(acc: int, s: Bytes, minus: bool, w: Width): (r: Result<int, ParseIntError>)
    ensures InRange(acc, w) && r.Ok? ==> InRange(r.value, w)
    decreases |s|
  {
    if s == [] then Ok(acc)
    else if !IsDigit(s[0]) then Err(InvalidDigit)
    else
      var overflow := Err(if minus then NegOverflow else PosOverflow);
      if !InRange(acc * 10, w) then overflow
      else
        var next := if minus then acc * 10 - (s[0] - 48) else acc * 10 + (s[0] - 48);
        if !InRange(next, w) then overflow else DigitLoop(next, s[1..], minus, w)
  }

  function Parse(s: Bytes, w: Width): (r: Result<int, ParseIntError>)
    ensures InRange(0, w) && r.Ok? ==> InRange(r.value, w)
  {
    if s == [] then Err(Empty)
    else if s == [PLUS] || s == [DASH] then Err(InvalidDigit)
    else if s[0] == PLUS then DigitLoop(0, s[1..], false, w)
    else if w.signed && s[0] == DASH then DigitLoop(0, s[1..], true, w)
    else DigitLoop(0, s, false, w)
  }

  function Signed(m: nat, minus: bool): int {
    var v: int := m;
    if minus then -v else v
  }

  // The value of digits that follow an accumulated one.
  lemma MeaningFront(s: Bytes, front: Bytes)
    requires AllDigits(front) && s != [] && AllDigits(s)
    ensures AllDigits(front + [s[0]]) && Meaning(front + [s[0]]) == 10 * Meaning(front) + s[0] - 48
  {
    assert (front + [s[0]])[..|front|] == front;
  }

  lemma {:induction false} MeaningGrows(front: Bytes, s: Bytes)
    requires AllDigits(front) && AllDigits(s)
    ensures AllDigits(front + s) && Meaning(front + s) >= Meaning(front)
    decreases |s|
  {
    if s == [] {
      assert front + s == front;
    } else {
      var t := s[..|s| - 1];
      MeaningGrows(front, t);
      assert (front + s)[..|front + s| - 1] == front + t;
    }
  }

  // One turn of the loop: the multiplication overflows only if the whole turn does.
  lemma LoopTurn(front: Bytes, s: Bytes, minus: bool, w: Width)
    requires IsWidth(w) && (minus ==> w.signed) && AllDigits(front) && s != [] && AllDigits(s)
    requires InRange(Signed(Meaning(front), minus), w)
    ensures AllDigits(front + [s[0]])
    ensures var next := Signed(Meaning(front + [s[0]]), minus);
            DigitLoop(Signed(Meaning(front), minus), s, minus, w) ==
              if InRange(next, w) then DigitLoop(next, s[1..], minus, w)
              else Err(if minus then NegOverflow else PosOverflow)
  {
    MeaningFront(s, front);
  }

  // An overflow on the way is one in the end.
  lemma OverflowStays(front: Bytes, s: Bytes, minus: bool, w: Width)
    requires IsWidth(w) && (minus ==> w.signed) && AllDigits(front) && AllDigits(s)
    requires !InRange(Signed(Meaning(front), minus), w)
    ensures AllDigits(front + s) && !InRange(Signed(Meaning(front + s), minus), w)
  {
    MeaningGrows(front, s);
  }

  // The checked loop yields the digits' value if that is in range, and the overflow of
  // its sign if not.
  lemma {:induction false} LoopComputes(front: Bytes, s: Bytes, minus: bool, w: Width)
    requires IsWidth(w) && (minus ==> w.signed) && AllDigits(front) && AllDigits(s)
    requires InRange(Signed(Meaning(front), minus), w)
    ensures AllDigits(front + s)
    ensures var v := Signed(Meaning(front + s), minus);
            DigitLoop(Signed(Meaning(front), minus), s, minus, w) ==
              if InRange(v, w) then Ok(v) else Err(if minus then NegOverflow else PosOverflow)
    decreases |s|
  {
    if s == [] {
      assert front + s == front;
    } else {
      LoopTurn(front, s, minus, w);
      Assoc(front, [s[0]], s[1..]);
      assert [s[0]] + s[1..] == s;
      if InRange(Signed(Meaning(front + [s[0]]), minus), w) {
        LoopComputes(front + [s[0]], s[1..], minus, w);
      } else {
        OverflowStays(front + [s[0]], s[1..], minus, w);
      }
    }
  }

  lemma {:induction false} LoopRejects(acc: int, s: Bytes, minus: bool, w: Width)
    requires !AllDigits(s)
    ensures DigitLoop(acc, s, minus, w).Err?
    decreases |s|
  {
    if IsDigit(s[0]) {
      assert s == [s[0]] + s[1..];
      LoopRejects(if minus then acc * 10 - (s[0] - 48) else acc * 10 + (s[0] - 48), s[1..], minus, w);
    }
  }

  // The sign and the digits of a text, if it has any.
  predicate Minus(s: Bytes, w: Width) {
    w.signed && s != [] && s[0] == DASH
  }

  function Body(s: Bytes, w: Width): Bytes {
    if s != [] && (s[0] == PLUS || Minus(s, w)) then s[1..] else s
  }

  predicate WellFormed(s: Bytes, w: Width) {
    Body(s, w) != [] && AllDigits(Body(s, w))
  }

  function ValueOf(s: Bytes, w: Width): int
    requires WellFormed(s, w)
  {
    Signed(Meaning(Body(s, w)), Minus(s, w))
  }

  lemma LoopFromZero(s: Bytes, minus: bool, w: Width)
    requires IsWidth(w) && (minus ==> w.signed)
    ensures AllDigits(s) ==>
      var v := Signed(Meaning(s), minus);
      DigitLoop(0, s, minus, w) == if InRange(v, w) then Ok(v) else Err(if minus then NegOverflow else PosOverflow)
    ensures !AllDigits(s) ==> DigitLoop(0, s, minus, w).Err?
  {
    if AllDigits(s) {
      assert [] + s == s;
      LoopComputes([], s, minus, w);
    } else {
      LoopRejects(0, s, minus, w);
    }
  }

  // Parsing accepts exactly the well-formed texts whose value fits the type, and yields
  // that value; a well-formed one that does not fit overflows on its side.
  lemma ParseIff(s: Bytes, w: Width)
    requires IsWidth(w)
    ensures Parse(s, w).Ok? <==> WellFormed(s, w) && InRange(ValueOf(s, w), w)
    ensures Parse(s, w).Ok? ==> Parse(s, w).value == ValueOf(s, w)
    ensures WellFormed(s, w) && ValueOf(s, w) > w.high ==> Parse(s, w) == Err(PosOverflow)
    ensures WellFormed(s, w) && ValueOf(s, w) < w.low ==> Parse(s, w) == Err(NegOverflow)
  {
    LoopFromZero(Body(s, w), Minus(s, w), w);
  }

  // Digits, alone or behind a plus, are their value; behind a minus its opposite, if the
  // type is signed.
  lemma ParseForms(d: Bytes, w: Width)
    requires IsWidth(w) && d != [] && forall i :: 0 <= i < |d| ==> 48 <= d[i] <= 57
    ensures Parse(d, w) == Parse([43] + d, w) ==
      if Meaning(d) <= w.high then Ok(Meaning(d)) else Err(PosOverflow)
    ensures Parse([45] + d, w) ==
      if !w.signed then Err(InvalidDigit)
      else if w.low + Meaning(d) <= 0 then Ok(0 - Meaning(d)) else Err(NegOverflow)
  {
    PlainForm(d, w);
    MinusForm(d, w);
  }

  lemma PlainForm(d: Bytes, w: Width)
    requires IsWidth(w) && d != [] && AllDigits(d)
    ensures Parse(d, w) == Parse([43] + d, w) == DigitLoop(0, d, false, w)
    ensures DigitLoop(0, d, false, w) == if Meaning(d) <= w.high then Ok(Meaning(d)) else Err(PosOverflow)
  {
    assert ([43] + d)[1..] == d && d[0] != PLUS && d[0] != DASH;
    LoopFromZero(d, false, w);
  }

  lemma MinusForm(d: Bytes, w: Width)
    requires IsWidth(w) && d != [] && AllDigits(d)
    ensures Parse([45] + d, w) ==
      if !w.signed then Err(InvalidDigit)
      else if w.low + Meaning(d) <= 0 then Ok(0 - Meaning(d)) else Err(NegOverflow)
  {
    assert ([45] + d)[1..] == d && !IsDigit(([45] + d)[0]);
    if w.signed { LoopFromZero(d, true, w); }
  }

  // Nothing else is accepted.
  lemma ParseOnlyForms(s: Bytes, w: Width) returns (d: Bytes)
    requires IsWidth(w) && Parse(s, w).Ok?
    ensures d != [] && forall i :: 0 <= i < |d| ==> 48 <= d[i] <= 57
    ensures s == d || s == [43] + d || (w.signed && s == [45] + d)
  {
    ParseIff(s, w);
    d := Body(s, w);
    assert s == d || s == [s[0]] + d;
  }

  // Leading zeros do not count.
  lemma {:induction false} LeadingZero(d: Bytes)
    requires AllDigits(d)
    ensures AllDigits([48] + d) && Meaning([48] + d) == Meaning(d)
  {
    var s := [48] + d;
    if d == [] {
      assert s[..0] == [];
    } else {
      LeadingZero(d[..|d| - 1]);
      assert s[..|s| - 1] == [48] + d[..|d| - 1];
    }
  }

  // Every value of the type parses back from its printed text.
  lemma PrintParse(v: int, w: Width)
    requires IsWidth(w) && InRange(v, w)
    ensures Parse(Print(v), w) == Ok(v)
  {
    var s := Print(v);
    if v < 0 { assert s[1..] == Digits(-v); }
    assert Body(s, w) == Digits(if v < 0 then -v else v);
    ParseIff(s, w);
  }

  // 0, or digits without a leading zero, or a minus before such digits.
  predicate CanonicalNat(s: Bytes) {
    s != [] && AllDigits(s) && (s[0] == 48 ==> s == [48])
  }

  predicate Canonical(s: Bytes) {
    CanonicalNat(s) || (s != [] && s[0] == DASH && CanonicalNat(s[1..]) && s[1..] != [48])
  }

  lemma {:induction false} MeaningPositive(s: Bytes)
    requires s != [] && AllDigits(s) && s[0] != 48
    ensures Meaning(s) > 0
  {
    if |s| > 1 { MeaningPositive(s[..|s| - 1]); }
  }

  // Canonical digits are those of their value.
  lemma {:induction false} DigitsOfMeaning(s: Bytes)
    requires CanonicalNat(s)
    ensures Digits(Meaning(s)) == s
  {
    if |s| == 1 {
      assert s == [s[0]] && s[..0] == [];
    } else {
      var front := s[..|s| - 1];
      MeaningPositive(front);
      DigitsOfMeaning(front);
      assert s == front + [s[|s| - 1]];
    }
  }

  lemma PrintIsCanonical(v: int)
    ensures Canonical(Print(v))
    ensures v >= 0 ==> CanonicalNat(Print(v))
  {
    if v < 0 { assert Print(v)[1..] == Digits(-v); }
  }

  lemma CanonicalReprints(s: Bytes, w: Width)
    requires IsWidth(w) && Parse(s, w).Ok? && Canonical(s)
    ensures Print(Parse(s, w).value) == s
  {
    ParseIff(s, w);
    if CanonicalNat(s) {
      assert Body(s, w) == s;
      DigitsOfMeaning(s);
    } else {
      var digits := s[1..];
      DigitsOfMeaning(digits);
      MeaningPositive(digits);
      assert s == [DASH] + digits;
    }
  }

  // A parsed text is what its value prints as exactly if it is canonical; a plus, a
  // leading zero and a minus before zero are accepted but not kept.
  lemma ReprintIff(s: Bytes, w: Width)
    requires IsWidth(w) && Parse(s, w).Ok?
    ensures Print(Parse(s, w).value) == s <==> Canonical(s)
  {
    PrintIsCanonical(Parse(s, w).value);
    if Canonical(s) { CanonicalReprints(s, w); }
  }
}

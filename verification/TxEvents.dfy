// Event ids of the form hash-index.
module TxEvents {
  import opened Options
  import opened Decimal

  datatype TxEventParseError = SeparatorNotFound | LogIndexNotNumber(error: ParseIntError)

  function New(txHash: Bytes, logIndex: nat): Bytes {
    txHash + [DASH] + Print(logIndex)
  }

  // Splits at the last dash.
  function RsplitOnce(s: Bytes): Option<(Bytes, Bytes)> {
    if s == [] then None
    else if s[|s| - 1] == DASH then Some((s[..|s| - 1], []))
    else
      match RsplitOnce(s[..|s| - 1])
      case None => None
      case Some((left, right)) => Some((left, right + [s[|s| - 1]]))
  }

  function HashAndIndex(s: Bytes): Result<(Bytes, nat), TxEventParseError> {
    match RsplitOnce(s)
    case None => Err(SeparatorNotFound)
    case Some((txHash, index)) =>
      match Parse(index, USIZE)
      case Err(error) => Err(LogIndexNotNumber(error))
      case Ok(v) => Ok((txHash, v))
  }

  lemma {:induction false} SplitsAtLastDash(s: Bytes)
    ensures RsplitOnce(s).None? <==> 45 !in s
    ensures RsplitOnce(s).Some? ==>
      var (left, right) := RsplitOnce(s).value;
      s == left + [45] + right && 45 !in right
  {
    if s != [] && s[|s| - 1] != DASH {
      var front := s[..|s| - 1];
      SplitsAtLastDash(front);
      assert s == front + [s[|s| - 1]];
    } else if s != [] {
      assert s == s[..|s| - 1] + [DASH];
    }
  }

  lemma {:induction false} SplitOf(left: Bytes, right: Bytes)
    requires DASH !in right
    ensures RsplitOnce(left + [DASH] + right) == Some((left, right))
    decreases |right|
  {
    var s := left + [DASH] + right;
    if right == [] {
      assert s[..|s| - 1] == left;
    } else {
      var front := right[..|right| - 1];
      SplitOf(left, front);
      assert s[..|s| - 1] == left + [DASH] + front;
      assert right == front + [s[|s| - 1]];
    }
  }

  lemma ParsedIndex(s: Bytes)
    requires Parse(s, USIZE).Ok?
    ensures Parse(s, USIZE).value >= 0 && DASH !in s
  {
    ParseIff(s, USIZE);
    assert forall i :: 0 <= i < |Body(s, USIZE)| ==> Body(s, USIZE)[i] != DASH;
    assert s == Body(s, USIZE) || s == [s[0]] + Body(s, USIZE);
  }

  // The id of any hash, dashes included, and any index parses back to both.
  lemma RoundTrip(txHash: Bytes, logIndex: nat)
    requires logIndex <= USIZE.high
    ensures New(txHash, logIndex) == txHash + [45] + Print(logIndex)
    ensures HashAndIndex(New(txHash, logIndex)) == Ok((txHash, logIndex))
  {
    PrintParse(logIndex, USIZE);
    ParsedIndex(Print(logIndex));
    SplitOf(txHash, Print(logIndex));
  }

  lemma NewIsInjective(txHash: Bytes, logIndex: nat, txHash': Bytes, logIndex': nat)
    requires logIndex <= USIZE.high && logIndex' <= USIZE.high
    requires New(txHash, logIndex) == New(txHash', logIndex')
    ensures txHash == txHash' && logIndex == logIndex'
  {
    RoundTrip(txHash, logIndex);
    RoundTrip(txHash', logIndex');
  }

  // The text behind the last dash.
  ghost predicate IsSplit(s: Bytes, txHash: Bytes, index: Bytes) {
    s == txHash + [DASH] + index && DASH !in index
  }

  // An id is refused exactly if it has no dash, or if what follows its last dash is not
  // the text of an index, or is one that a usize does not hold.
  lemma RefusedIff(s: Bytes)
    ensures HashAndIndex(s) == Err(SeparatorNotFound) <==> DASH !in s
    ensures HashAndIndex(s).Ok? <==> exists txHash, index ::
      IsSplit(s, txHash, index) && WellFormed(index, USIZE) && InRange(ValueOf(index, USIZE), USIZE)
  {
    SplitsAtLastDash(s);
    if HashAndIndex(s).Ok? {
      var (left, right) := RsplitOnce(s).value;
      ParseIff(right, USIZE);
      assert IsSplit(s, left, right);
    }
    if txHash, index :| IsSplit(s, txHash, index) && WellFormed(index, USIZE) && InRange(ValueOf(index, USIZE), USIZE) {
      SplitOf(txHash, index);
      ParseIff(index, USIZE);
    }
  }

  // What an id parses to makes the same id again exactly if its index text is
  // canonical: a plus or leading zeros are lost.
  lemma ReprintIff(s: Bytes, txHash: Bytes, index: Bytes)
    requires IsSplit(s, txHash, index) && HashAndIndex(s).Ok?
    ensures HashAndIndex(s).value.0 == txHash
    ensures New(txHash, HashAndIndex(s).value.1) == s <==> CanonicalNat(index)
  {
    SplitOf(txHash, index);
    ParsedIndex(index);
    Decimal.ReprintIff(index, USIZE);
    var v := HashAndIndex(s).value.1;
    assert index != [] && index[0] != DASH by { ParseIff(index, USIZE); }
    assert New(txHash, v)[|txHash| + 1..] == Print(v) && s[|txHash| + 1..] == index;
  }
}

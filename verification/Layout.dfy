// The bytes of every encoding: what stands where. The tags, the order of the fields and
// of the bytes of a number are those of Borsh and of the declarations.
module Layout {
  import opened Options
  import opened Decimal
  import opened Seqs
  import opened Borsh
  import opened Texts
  import opened Messages

  // Numbers have their least significant byte first.
  lemma ByteIs(n: nat)
    ensures Little(n, 1) == [n % 0x100]
  {
  }

  lemma WordIs(n: nat)
    ensures Little(n, 4) == [n % 0x100, n / 0x100 % 0x100, n / 0x1_0000 % 0x100, n / 0x100_0000 % 0x100]
  {
    var n1, n2, n3 := n / 0x100, n / 0x100 / 0x100, n / 0x100 / 0x100 / 0x100;
    assert n2 == n / 0x1_0000 && n3 == n / 0x100_0000;
    assert Little(n3, 1) == [n3 % 0x100];
    assert Little(n2, 2) == [n2 % 0x100] + Little(n3, 1);
    assert Little(n1, 3) == [n1 % 0x100] + Little(n2, 2);
    assert Little(n, 4) == [n % 0x100] + Little(n1, 3);
  }

  lemma DoubleWordIs(n: nat)
    ensures Little(n, 8) == Little(n, 4) + Little(n / 0x1_0000_0000, 4)
  {
    var n1, n2, n3, n4 := n / 0x100, n / 0x100 / 0x100, n / 0x100 / 0x100 / 0x100, n / 0x100 / 0x100 / 0x100 / 0x100;
    assert n4 == n / 0x1_0000_0000;
    assert Little(n3, 5) == [n3 % 0x100] + Little(n4, 4) && Little(n3, 1) == [n3 % 0x100] + [];
    LittleJoins(n2, n3, 1, 5, n4);
    LittleJoins(n1, n2, 2, 6, n4);
    LittleJoins(n, n1, 3, 7, n4);
  }

  lemma LittleJoins(n: nat, front: nat, width: nat, wide: nat, high: nat)
    requires front == n / 0x100 && Little(front, wide) == Little(front, width) + Little(high, 4)
    ensures Little(n, wide + 1) == Little(n, width + 1) + Little(high, 4)
  {
  }

  lemma ViaEncodes<A, B>(c: Codec<A>, read: A -> Option<B>, write: B -> A, v: B)
    ensures Via(c, read, write).encode(v) == c.encode(write(v))
  {
  }

  lemma PairEncodes<A, B>(a: Codec<A>, b: Codec<B>, v: (A, B))
    ensures PairOf(a, b).encode(v) == Join(a.encode(v.0), b.encode(v.1))
  {
  }

  lemma TripleEncodes<A, B, C>(a: Codec<A>, b: Codec<B>, c: Codec<C>, v: (A, B, C))
    ensures TripleOf(a, b, c).encode(v) == Join(a.encode(v.0), Join(b.encode(v.1), c.encode(v.2)))
  {
  }

  lemma FourEncodes<A, B, C, D>(a: Codec<A>, b: Codec<B>, c: Codec<C>, d: Codec<D>, v: (A, B, C, D))
    ensures FourOf(a, b, c, d).encode(v) ==
      Join(a.encode(v.0), Join(b.encode(v.1), Join(c.encode(v.2), d.encode(v.3))))
  {
  }

  lemma FiveEncodes<A, B, C, D, E>(a: Codec<A>, b: Codec<B>, c: Codec<C>, d: Codec<D>, e: Codec<E>,
                                   v: (A, B, C, D, E))
    ensures FiveOf(a, b, c, d, e).encode(v) ==
      Join(a.encode(v.0), Join(b.encode(v.1), Join(c.encode(v.2), Join(d.encode(v.3), e.encode(v.4)))))
  {
  }

  // Strings and byte arrays have their length before them.
  lemma BytesLayout(s: Bytes)
    ensures ByteVec().encode(s) == if |s| <= 0xFFFF_FFFF then Some(Little(|s|, 4) + s) else None
  {
  }

  lemma TextLayout(t: Text)
    ensures Str().encode(t) == if |t| <= 0xFFFF_FFFF then Some(Little(|t|, 4) + t) else None
  {
    ViaEncodes(ByteVec(), TextOf, (u: Text) => u, t);
  }

  // Signed numbers are two's complement.
  lemma NumberLayout(v: I64, n: U64)
    ensures Signed64().encode(v) == Some(Little(if v < 0 then 0x1_0000_0000_0000_0000 + v else v, 8))
    ensures Unsigned64().encode(n) == Some(Little(n, 8))
  {
    assert Power(8) == 0x1_0000_0000_0000_0000;
    ViaEncodes(Fixed(8), I64Of, TwosComplement, v);
    ViaEncodes(Fixed(8), U64Of, (m: U64) => m, n);
  }

  lemma FlagLayout(b: bool, s: MessageExecutionStatus, r: CannotExecuteMessageReason)
    ensures Flag().encode(b) == Some([if b then 1 else 0])
    ensures StatusCodec().encode(s) == Some([if s.Successful? then 0 else 1])
    ensures ReasonCodec().encode(r) == Some([if r.InsufficientGas? then 0 else 1])
  {
    ByteIs(0);
    ByteIs(1);
  }

  lemma OptionLayout<T>(c: Codec<T>, v: Option<T>)
    ensures OptionOf(c).encode(v) == if v.None? then Some([0]) else Join(Some([1]), c.encode(v.value))
  {
  }

  lemma VecLayout<T>(c: Codec<T>, v: T, vs: seq<T>)
    ensures |vs| <= 0xFFFF_FFFF ==> VecOf(c).encode(vs) == Join(Some(Little(|vs|, 4)), EncodeAll(c, vs))
    ensures EncodeAll(c, []) == Some([]) && EncodeAll(c, [v] + vs) == Join(c.encode(v), EncodeAll(c, vs))
  {
    assert ([v] + vs)[1..] == vs;
  }

  lemma AmountLayout(amount: BigInt)
    ensures Amount().encode(amount) == Str().encode(PrintBigInt(amount))
  {
    ViaEncodes(Str(), ParseBigInt, PrintBigInt, amount);
  }

  lemma TimeLayout(time: DateTime)
    ensures Timestamp().encode(time) == Join(Signed64().encode(time.secs), Some(Little(time.nanos, 4)))
  {
    assert Power(4) == 0x1_0000_0000;
    PairEncodes(Signed64(), Fixed(4), (time.secs, time.nanos));
  }

  lemma MetadataLayout<T>(extra: Codec<T>, m: EventMetadata<T>)
    ensures MetadataCodec(extra).encode(m) ==
      Join(OptionOf(Str()).encode(m.txId), Join(OptionOf(Timestamp()).encode(m.timestamp),
        Join(OptionOf(Str()).encode(m.fromAddress),
        Join(OptionOf(Flag()).encode(m.finalized), extra.encode(m.extra)))))
  {
    FiveEncodes(OptionOf(Str()), OptionOf(Timestamp()), OptionOf(Str()), OptionOf(Flag()), extra, MetadataFields(m));
    var fields := FiveOf(OptionOf(Str()), OptionOf(Timestamp()), OptionOf(Str()), OptionOf(Flag()), extra);
    assert MetadataCodec(extra).encode(m) == fields.encode(MetadataFields(m));
  }

  lemma BaseLayout<T>(extra: Codec<T>, b: EventBase<T>)
    ensures BaseCodec(extra).encode(b) ==
      Join(Str().encode(b.eventId), OptionOf(MetadataCodec(extra)).encode(b.meta))
  {
    PairEncodes(Str(), OptionOf(MetadataCodec(extra)), BaseFields(b));
    assert BaseCodec(extra).encode(b) == PairOf(Str(), OptionOf(MetadataCodec(extra))).encode(BaseFields(b));
  }

  lemma TokenLayout(t: Token)
    ensures TokenCodec().encode(t) ==
      Join(OptionOf(Str()).encode(t.tokenId), Amount().encode(t.amount))
  {
    PairEncodes(OptionOf(Str()), Amount(), TokenFields(t));
    ViaEncodes(PairOf(OptionOf(Str()), Amount()), TokenOf, TokenFields, t);
  }

  lemma GatewayLayout(g: GatewayV2Message)
    ensures GatewayCodec().encode(g) ==
      Join(Str().encode(g.messageId), Join(Str().encode(g.sourceChain),
        Join(Str().encode(g.sourceAddress),
        Join(Str().encode(g.destinationAddress), ByteVec().encode(g.payloadHash)))))
  {
    FiveEncodes(Str(), Str(), Str(), Str(), ByteVec(), GatewayFields(g));
    ViaEncodes(FiveOf(Str(), Str(), Str(), Str(), ByteVec()), GatewayOf, GatewayFields, g);
  }

  lemma CallExtraLayout(x: CallEventMetadata)
    ensures CallExtraCodec().encode(x) ==
      OptionOf(Str()).encode(x.parentMessageId)
  {
    ViaEncodes(OptionOf(Str()), CallExtraOf, CallExtraFields, x);
  }

  lemma ApprovedExtraLayout(x: MessageApprovedEventMetadata)
    ensures ApprovedExtraCodec().encode(x) ==
      OptionOf(Str()).encode(x.commandId)
  {
    ViaEncodes(OptionOf(Str()), ApprovedExtraOf, ApprovedExtraFields, x);
  }

  lemma ExecutedExtraLayout(x: MessageExecutedEventMetadata)
    ensures ExecutedExtraCodec().encode(x) ==
      Join(OptionOf(Str()).encode(x.commandId), OptionOf(VecOf(Str())).encode(x.childMessageIds))
  {
    PairEncodes(OptionOf(Str()), OptionOf(VecOf(Str())), ExecutedExtraFields(x));
    ViaEncodes(PairOf(OptionOf(Str()), OptionOf(VecOf(Str()))), ExecutedExtraOf, ExecutedExtraFields, x);
  }

  lemma CannotExecuteExtraLayout(x: CannotExecuteMessageEventV2Metadata)
    ensures CannotExecuteExtraCodec().encode(x) ==
      Join(OptionOf(Str()).encode(x.fromAddress),
        Join(OptionOf(Timestamp()).encode(x.timestamp), Id().encode(x.taskItemId)))
  {
    TripleEncodes(OptionOf(Str()), OptionOf(Timestamp()), Id(), CannotExecuteExtraFields(x));
    ViaEncodes(TripleOf(OptionOf(Str()), OptionOf(Timestamp()), Id()), CannotExecuteExtraOf,
               CannotExecuteExtraFields, x);
  }

  lemma RotatedExtraLayout(x: SignersRotatedMetadata)
    ensures RotatedExtraCodec().encode(x) ==
      Join(ByteVec().encode(x.signerHash), Unsigned64().encode(x.epoch))
  {
    PairEncodes(ByteVec(), Unsigned64(), RotatedExtraFields(x));
    ViaEncodes(PairOf(ByteVec(), Unsigned64()), RotatedExtraOf, RotatedExtraFields, x);
  }

  lemma GasCreditLayout(x: GasCreditEvent)
    ensures GasCreditCodec().encode(x) ==
      Join(BaseCodec(Unit()).encode(x.base), Join(Str().encode(x.messageId),
        Join(Str().encode(x.refundAddress), TokenCodec().encode(x.payment))))
  {
    FourEncodes(BaseCodec(Unit()), Str(), Str(), TokenCodec(), GasCreditFields(x));
    ViaEncodes(FourOf(BaseCodec(Unit()), Str(), Str(), TokenCodec()), GasCreditOf, GasCreditFields, x);
  }

  lemma GasRefundedLayout(x: GasRefundedEvent)
    ensures GasRefundedCodec().encode(x) ==
      Join(BaseCodec(Unit()).encode(x.base), Join(Str().encode(x.messageId),
        Join(Str().encode(x.recipientAddress),
        Join(TokenCodec().encode(x.refundedAmount), TokenCodec().encode(x.cost)))))
  {
    FiveEncodes(BaseCodec(Unit()), Str(), Str(), TokenCodec(), TokenCodec(), GasRefundedFields(x));
    ViaEncodes(FiveOf(BaseCodec(Unit()), Str(), Str(), TokenCodec(), TokenCodec()), GasRefundedOf,
               GasRefundedFields, x);
  }

  lemma CallLayout(x: CallEvent)
    ensures CallCodec().encode(x) ==
      Join(BaseCodec(CallExtraCodec()).encode(x.base), Join(GatewayCodec().encode(x.message),
        Join(Str().encode(x.destinationChain), ByteVec().encode(x.payload))))
  {
    FourEncodes(BaseCodec(CallExtraCodec()), GatewayCodec(), Str(), ByteVec(), CallFields(x));
    ViaEncodes(FourOf(BaseCodec(CallExtraCodec()), GatewayCodec(), Str(), ByteVec()), CallOf, CallFields, x);
  }

  lemma ApprovedLayout(x: MessageApprovedEvent)
    ensures ApprovedCodec().encode(x) ==
      Join(BaseCodec(ApprovedExtraCodec()).encode(x.base),
        Join(GatewayCodec().encode(x.message), TokenCodec().encode(x.cost)))
  {
    TripleEncodes(BaseCodec(ApprovedExtraCodec()), GatewayCodec(), TokenCodec(), ApprovedFields(x));
    ViaEncodes(TripleOf(BaseCodec(ApprovedExtraCodec()), GatewayCodec(), TokenCodec()), ApprovedOf, ApprovedFields, x);
  }

  lemma ExecutedLayout(x: MessageExecutedEvent)
    ensures ExecutedCodec().encode(x) ==
      Join(BaseCodec(ExecutedExtraCodec()).encode(x.base), Join(Str().encode(x.messageId),
        Join(Str().encode(x.sourceChain), Join(StatusCodec().encode(x.status), TokenCodec().encode(x.cost)))))
  {
    FiveEncodes(BaseCodec(ExecutedExtraCodec()), Str(), Str(), StatusCodec(), TokenCodec(), ExecutedFields(x));
    ViaEncodes(FiveOf(BaseCodec(ExecutedExtraCodec()), Str(), Str(), StatusCodec(), TokenCodec()), ExecutedOf,
               ExecutedFields, x);
  }

  lemma CannotExecuteLayout(x: CannotExecuteMessageEventV2)
    ensures CannotExecuteCodec().encode(x) ==
      Join(BaseCodec(CannotExecuteExtraCodec()).encode(x.base), Join(Str().encode(x.messageId),
        Join(Str().encode(x.sourceChain), Join(ReasonCodec().encode(x.reason), Str().encode(x.details)))))
  {
    FiveEncodes(BaseCodec(CannotExecuteExtraCodec()), Str(), Str(), ReasonCodec(), Str(), CannotExecuteFields(x));
    ViaEncodes(FiveOf(BaseCodec(CannotExecuteExtraCodec()), Str(), Str(), ReasonCodec(), Str()), CannotExecuteOf,
               CannotExecuteFields, x);
  }

  lemma RotatedLayout(x: SignersRotatedEvent)
    ensures RotatedCodec().encode(x) ==
      Join(BaseCodec(RotatedExtraCodec()).encode(x.base), TokenCodec().encode(x.cost))
  {
    PairEncodes(BaseCodec(RotatedExtraCodec()), TokenCodec(), RotatedFields(x));
    ViaEncodes(PairOf(BaseCodec(RotatedExtraCodec()), TokenCodec()), RotatedOf, RotatedFields, x);
  }

  lemma ConstructProofLayout(x: ConstructProofTask)
    ensures ConstructProofCodec().encode(x) ==
      Join(GatewayCodec().encode(x.message), ByteVec().encode(x.payload))
  {
    PairEncodes(GatewayCodec(), ByteVec(), ConstructProofFields(x));
    ViaEncodes(PairOf(GatewayCodec(), ByteVec()), ConstructProofOf, ConstructProofFields, x);
  }

  lemma VerifyLayout(x: VerifyTask)
    ensures VerifyCodec().encode(x) ==
      Join(GatewayCodec().encode(x.message), ByteVec().encode(x.payload))
  {
    PairEncodes(GatewayCodec(), ByteVec(), VerifyFields(x));
    ViaEncodes(PairOf(GatewayCodec(), ByteVec()), VerifyOf, VerifyFields, x);
  }

  lemma GatewayTxLayout(x: GatewayTransactionTask)
    ensures GatewayTxCodec().encode(x) ==
      ByteVec().encode(x.executeData)
  {
    ViaEncodes(ByteVec(), GatewayTxOf, GatewayTxFields, x);
  }

  lemma ExecuteLayout(x: ExecuteTask)
    ensures ExecuteCodec().encode(x) ==
      Join(GatewayCodec().encode(x.message),
        Join(ByteVec().encode(x.payload), TokenCodec().encode(x.availableGasBalance)))
  {
    TripleEncodes(GatewayCodec(), ByteVec(), TokenCodec(), ExecuteFields(x));
    ViaEncodes(TripleOf(GatewayCodec(), ByteVec(), TokenCodec()), ExecuteOf, ExecuteFields, x);
  }

  lemma RefundLayout(x: RefundTask)
    ensures RefundCodec().encode(x) ==
      Join(GatewayCodec().encode(x.message),
        Join(Str().encode(x.refundRecipientAddress), TokenCodec().encode(x.remainingGasBalance)))
  {
    TripleEncodes(GatewayCodec(), Str(), TokenCodec(), RefundFields(x));
    ViaEncodes(TripleOf(GatewayCodec(), Str(), TokenCodec()), RefundOf, RefundFields, x);
  }

  lemma TaskItemLayout(t: TaskItem)
    ensures TaskItemCodec().encode(t) ==
      Join(Id().encode(t.id), Join(Timestamp().encode(t.timestamp), TaskCodec().encode(t.task)))
  {
    TripleEncodes(Id(), Timestamp(), TaskCodec(), TaskItemFields(t));
    ViaEncodes(TripleOf(Id(), Timestamp(), TaskCodec()), TaskItemOf, TaskItemFields, t);
  }

  // A variant's tag is its position in the declaration.
  lemma EventLayoutOf(c: EventVariants, e: Event)
    ensures EventCodecOf(c).encode(e) ==
      match e
      case GasCredit(x) => Join(Some([0]), c.gasCredit.encode(x))
      case GasRefunded(x) => Join(Some([1]), c.gasRefunded.encode(x))
      case Call(x) => Join(Some([2]), c.call.encode(x))
      case MessageApproved(x) => Join(Some([3]), c.approved.encode(x))
      case MessageExecuted(x) => Join(Some([4]), c.executed.encode(x))
      case CannotExecuteMessageV2(x) => Join(Some([5]), c.cannotExecute.encode(x))
      case SignersRotated(x) => Join(Some([6]), c.rotated.encode(x))
  {
  }

  lemma TaskLayoutOf(c: TaskVariants, t: Task)
    ensures TaskCodecOf(c).encode(t) ==
      match t
      case ConstructProof(x) => Join(Some([0]), c.constructProof.encode(x))
      case Verify(x) => Join(Some([1]), c.verify.encode(x))
      case GatewayTx(x) => Join(Some([2]), c.gatewayTx.encode(x))
      case Execute(x) => Join(Some([3]), c.execute.encode(x))
      case Refund(x) => Join(Some([4]), c.refund.encode(x))
  {
  }

  // Which codec a variant has, and that an id is its sixteen bytes.
  lemma VariantsAre(id: Uuid)
    ensures EventCodec() == EventCodecOf(EventVariants(
      GasCreditCodec(), GasRefundedCodec(), CallCodec(), ApprovedCodec(), ExecutedCodec(), CannotExecuteCodec(),
      RotatedCodec()))
    ensures TaskCodec() == TaskCodecOf(TaskVariants(
      ConstructProofCodec(), VerifyCodec(), GatewayTxCodec(), ExecuteCodec(), RefundCodec()))
    ensures Id().encode(id) == Some(id) && Unit().encode(()) == Some([])
  {
  }

  // The encoding has one byte, then the id as a string.
  ghost predicate IdBehindTag(encoded: Option<Bytes>, id: Text) {
    encoded.Some? ==>
      && encoded.value != [] && Str().decode(encoded.value[1..]).Some?
      && Str().decode(encoded.value[1..]).value.0 == id
  }

  lemma FirstBehindTag(tag: Byte, id: Text, others: Option<Bytes>)
    ensures IdBehindTag(Join(Some([tag]), Join(Str().encode(id), others)), id)
  {
    var first := Str().encode(id);
    if first.Some? && others.Some? {
      StrLawful();
      assert ([tag] + (first.value + others.value))[1..] == first.value + others.value;
      assert Str().decode(first.value + others.value) == Some((id, others.value));
    }
  }

  lemma JoinAssoc(a: Option<Bytes>, b: Option<Bytes>, c: Option<Bytes>)
    ensures Join(Join(a, b), c) == Join(a, Join(b, c))
  {
    if a.Some? && b.Some? && c.Some? { Assoc(a.value, b.value, c.value); }
  }

  lemma BaseBehindTag<T>(tag: Byte, extra: Codec<T>, b: EventBase<T>, others: Option<Bytes>)
    ensures IdBehindTag(Join(Some([tag]), Join(BaseCodec(extra).encode(b), others)), b.eventId)
  {
    var meta := OptionOf(MetadataCodec(extra)).encode(b.meta);
    BaseLayout(extra, b);
    JoinAssoc(Str().encode(b.eventId), meta, others);
    FirstBehindTag(tag, b.eventId, Join(meta, others));
  }

  lemma GasCreditId(x: GasCreditEvent)
    ensures IdBehindTag(Join(Some([0]), GasCreditCodec().encode(x)), x.base.eventId)
  {
    GasCreditLayout(x);
    BaseBehindTag(0, Unit(), x.base,
      Join(Str().encode(x.messageId), Join(Str().encode(x.refundAddress), TokenCodec().encode(x.payment))));
  }

  lemma GasRefundedId(x: GasRefundedEvent)
    ensures IdBehindTag(Join(Some([1]), GasRefundedCodec().encode(x)), x.base.eventId)
  {
    GasRefundedLayout(x);
    BaseBehindTag(1, Unit(), x.base,
      Join(Str().encode(x.messageId), Join(Str().encode(x.recipientAddress),
        Join(TokenCodec().encode(x.refundedAmount), TokenCodec().encode(x.cost)))));
  }

  lemma CallId(x: CallEvent)
    ensures IdBehindTag(Join(Some([2]), CallCodec().encode(x)), x.base.eventId)
  {
    CallLayout(x);
    BaseBehindTag(2, CallExtraCodec(), x.base,
      Join(GatewayCodec().encode(x.message),
        Join(Str().encode(x.destinationChain), ByteVec().encode(x.payload))));
  }

  lemma ApprovedId(x: MessageApprovedEvent)
    ensures IdBehindTag(Join(Some([3]), ApprovedCodec().encode(x)), x.base.eventId)
  {
    ApprovedLayout(x);
    BaseBehindTag(3, ApprovedExtraCodec(), x.base,
      Join(GatewayCodec().encode(x.message), TokenCodec().encode(x.cost)));
  }

  lemma ExecutedId(x: MessageExecutedEvent)
    ensures IdBehindTag(Join(Some([4]), ExecutedCodec().encode(x)), x.base.eventId)
  {
    ExecutedLayout(x);
    BaseBehindTag(4, ExecutedExtraCodec(), x.base,
      Join(Str().encode(x.messageId), Join(Str().encode(x.sourceChain),
        Join(StatusCodec().encode(x.status), TokenCodec().encode(x.cost)))));
  }

  lemma CannotExecuteId(x: CannotExecuteMessageEventV2)
    ensures IdBehindTag(Join(Some([5]), CannotExecuteCodec().encode(x)), x.base.eventId)
  {
    CannotExecuteLayout(x);
    BaseBehindTag(5, CannotExecuteExtraCodec(), x.base,
      Join(Str().encode(x.messageId), Join(Str().encode(x.sourceChain),
        Join(ReasonCodec().encode(x.reason), Str().encode(x.details)))));
  }

  lemma RotatedId(x: SignersRotatedEvent)
    ensures IdBehindTag(Join(Some([6]), RotatedCodec().encode(x)), x.base.eventId)
  {
    RotatedLayout(x);
    BaseBehindTag(6, RotatedExtraCodec(), x.base,
      TokenCodec().encode(x.cost));
  }

  // An event is published under the id that its encoding begins with: the first string
  // behind the tag, whatever the variant.
  lemma EventStartsWithId(e: Event)
    requires EventCodec().encode(e).Some?
    ensures var s := EventCodec().encode(e).value;
            s != [] && Str().decode(s[1..]).Some? && Str().decode(s[1..]).value.0 == EventId(e)
  {
    EventLayoutOf(EventVariantCodecs(), e);
    match e
    case GasCredit(x) => GasCreditId(x);
    case GasRefunded(x) => GasRefundedId(x);
    case Call(x) => CallId(x);
    case MessageApproved(x) => ApprovedId(x);
    case MessageExecuted(x) => ExecutedId(x);
    case CannotExecuteMessageV2(x) => CannotExecuteId(x);
    case SignersRotated(x) => RotatedId(x);
  }
}

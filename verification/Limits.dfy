// What can be serialized: everything whose strings, byte arrays and lists are at most
// as long as a u32 counts.
module Limits {
  import opened Options
  import opened Decimal
  import opened Borsh
  import opened Texts
  import opened Messages

  predicate Short(s: Bytes) {
    |s| <= U32_MAX
  }

  predicate ShortIfAny(s: Option<Text>) {
    s.None? || Short(s.value)
  }

  predicate ShortMessage(m: GatewayV2Message) {
    && Short(m.messageId) && Short(m.sourceChain) && Short(m.sourceAddress)
    && Short(m.destinationAddress) && Short(m.payloadHash)
  }

  predicate ShortBase<T>(b: EventBase<T>, shortExtra: T -> bool) {
    && Short(b.eventId)
    && (b.meta.None? || (ShortIfAny(b.meta.value.txId) && ShortIfAny(b.meta.value.fromAddress)
                         && shortExtra(b.meta.value.extra)))
  }

  predicate ShortCallExtra(x: CallEventMetadata) {
    ShortIfAny(x.parentMessageId)
  }

  predicate ShortApprovedExtra(x: MessageApprovedEventMetadata) {
    ShortIfAny(x.commandId)
  }

  predicate ShortCannotExecuteExtra(x: CannotExecuteMessageEventV2Metadata) {
    ShortIfAny(x.fromAddress)
  }

  predicate ShortRotatedExtra(x: SignersRotatedMetadata) {
    Short(x.signerHash)
  }

  predicate ShortExecutedExtra(x: MessageExecutedEventMetadata) {
    && ShortIfAny(x.commandId)
    && (x.childMessageIds.None? || (|x.childMessageIds.value| <= U32_MAX
                                    && forall id :: id in x.childMessageIds.value ==> Short(id)))
  }

  predicate ShortGasCredit(x: GasCreditEvent) {
    ShortBase(x.base, (_: ()) => true) && Short(x.messageId) && Short(x.refundAddress) && ShortIfAny(x.payment.tokenId)
  }

  predicate ShortGasRefunded(x: GasRefundedEvent) {
    && ShortBase(x.base, (_: ()) => true) && Short(x.messageId) && Short(x.recipientAddress)
    && ShortIfAny(x.refundedAmount.tokenId) && ShortIfAny(x.cost.tokenId)
  }

  predicate ShortCall(x: CallEvent) {
    ShortBase(x.base, ShortCallExtra) && ShortMessage(x.message) && Short(x.destinationChain) && Short(x.payload)
  }

  predicate ShortApproved(x: MessageApprovedEvent) {
    ShortBase(x.base, ShortApprovedExtra) && ShortMessage(x.message) && ShortIfAny(x.cost.tokenId)
  }

  predicate ShortExecuted(x: MessageExecutedEvent) {
    && ShortBase(x.base, ShortExecutedExtra) && Short(x.messageId) && Short(x.sourceChain)
    && ShortIfAny(x.cost.tokenId)
  }

  predicate ShortCannotExecute(x: CannotExecuteMessageEventV2) {
    && ShortBase(x.base, ShortCannotExecuteExtra)
    && Short(x.messageId) && Short(x.sourceChain) && Short(x.details)
  }

  predicate ShortRotated(x: SignersRotatedEvent) {
    ShortBase(x.base, ShortRotatedExtra) && ShortIfAny(x.cost.tokenId)
  }

  predicate ShortEvent(e: Event) {
    match e
    case GasCredit(x) => ShortGasCredit(x)
    case GasRefunded(x) => ShortGasRefunded(x)
    case Call(x) => ShortCall(x)
    case MessageApproved(x) => ShortApproved(x)
    case MessageExecuted(x) => ShortExecuted(x)
    case CannotExecuteMessageV2(x) => ShortCannotExecute(x)
    case SignersRotated(x) => ShortRotated(x)
  }

  predicate ShortTask(t: Task) {
    match t
    case ConstructProof(x) => ShortMessage(x.message) && Short(x.payload)
    case Verify(x) => ShortMessage(x.message) && Short(x.payload)
    case GatewayTx(x) => Short(x.executeData)
    case Execute(x) => ShortMessage(x.message) && Short(x.payload) && ShortIfAny(x.availableGasBalance.tokenId)
    case Refund(x) =>
      ShortMessage(x.message) && Short(x.refundRecipientAddress) && ShortIfAny(x.remainingGasBalance.tokenId)
  }

  lemma PairFits<A, B>(a: Codec<A>, b: Codec<B>, v: (A, B))
    ensures PairOf(a, b).fits(v) <==> a.fits(v.0) && b.fits(v.1)
  {
  }

  lemma TripleFits<A, B, C>(a: Codec<A>, b: Codec<B>, c: Codec<C>, v: (A, B, C))
    ensures TripleOf(a, b, c).fits(v) <==> a.fits(v.0) && b.fits(v.1) && c.fits(v.2)
  {
  }

  lemma FourFits<A, B, C, D>(a: Codec<A>, b: Codec<B>, c: Codec<C>, d: Codec<D>, v: (A, B, C, D))
    ensures FourOf(a, b, c, d).fits(v) <==> a.fits(v.0) && b.fits(v.1) && c.fits(v.2) && d.fits(v.3)
  {
  }

  lemma FiveFits<A, B, C, D, E>(a: Codec<A>, b: Codec<B>, c: Codec<C>, d: Codec<D>, e: Codec<E>, v: (A, B, C, D, E))
    ensures FiveOf(a, b, c, d, e).fits(v) <==> a.fits(v.0) && b.fits(v.1) && c.fits(v.2) && d.fits(v.3) && e.fits(v.4)
  {
  }

  lemma TokenFits(t: Token)
    ensures TokenCodec().fits(t) <==> ShortIfAny(t.tokenId)
  {
    AmountFits(t.amount);
    assert TokenCodec().fits(t) == PairOf(OptionOf(Str()), Amount()).fits(TokenFields(t));
  }

  lemma MessageFits(m: GatewayV2Message)
    ensures GatewayCodec().fits(m) <==> ShortMessage(m)
  {
    FiveFits(Str(), Str(), Str(), Str(), ByteVec(), GatewayFields(m));
  }

  lemma MetadataFits<T(!new)>(extra: Codec<T>, m: EventMetadata<T>)
    ensures MetadataCodec(extra).fits(m) <==> ShortIfAny(m.txId) && ShortIfAny(m.fromAddress) && extra.fits(m.extra)
  {
    var fields := FiveOf(OptionOf(Str()), OptionOf(Timestamp()), OptionOf(Str()), OptionOf(Flag()), extra);
    if m.timestamp.Some? { TimestampFits(m.timestamp.value); }
    FiveFits(OptionOf(Str()), OptionOf(Timestamp()), OptionOf(Str()), OptionOf(Flag()), extra, MetadataFields(m));
    assert MetadataCodec(extra).fits(m) == fields.fits(MetadataFields(m));
  }

  lemma BaseFits<T(!new)>(extra: Codec<T>, b: EventBase<T>)
    ensures BaseCodec(extra).fits(b) <==>
      Short(b.eventId) && (b.meta.None? ||
        (ShortIfAny(b.meta.value.txId) && ShortIfAny(b.meta.value.fromAddress) && extra.fits(b.meta.value.extra)))
  {
    assert BaseCodec(extra).fits(b) == PairOf(Str(), OptionOf(MetadataCodec(extra))).fits(BaseFields(b));
    if b.meta.Some? { MetadataFits(extra, b.meta.value); }
  }

  lemma ExecutedExtraFits(x: MessageExecutedEventMetadata)
    ensures ExecutedExtraCodec().fits(x) <==> ShortExecutedExtra(x)
  {
    assert ExecutedExtraCodec().fits(x) == PairOf(OptionOf(Str()), OptionOf(VecOf(Str()))).fits(ExecutedExtraFields(x));
    if x.childMessageIds.Some? {
      var ids := x.childMessageIds.value;
      assert forall i :: 0 <= i < |ids| ==> (Str().fits(ids[i]) <==> Short(ids[i]));
    }
  }

  lemma CallExtraFits(m: CallEventMetadata)
    ensures CallExtraCodec().fits(m) <==> ShortIfAny(m.parentMessageId)
  {
    assert CallExtraCodec().fits(m) == OptionOf(Str()).fits(CallExtraFields(m));
  }

  lemma ApprovedExtraFits(m: MessageApprovedEventMetadata)
    ensures ApprovedExtraCodec().fits(m) <==> ShortIfAny(m.commandId)
  {
    assert ApprovedExtraCodec().fits(m) == OptionOf(Str()).fits(ApprovedExtraFields(m));
  }

  lemma RotatedExtraFits(m: SignersRotatedMetadata)
    ensures RotatedExtraCodec().fits(m) <==> Short(m.signerHash)
  {
    Unsigned64Fits(m.epoch);
    assert RotatedExtraCodec().fits(m) == PairOf(ByteVec(), Unsigned64()).fits(RotatedExtraFields(m));
  }

  lemma ConstructProofFits(x: ConstructProofTask)
    ensures ConstructProofCodec().fits(x) <==> ShortTask(ConstructProof(x))
  {
    MessageFits(x.message);
    assert ConstructProofCodec().fits(x) == PairOf(GatewayCodec(), ByteVec()).fits(ConstructProofFields(x));
  }

  lemma VerifyFits(x: VerifyTask)
    ensures VerifyCodec().fits(x) <==> ShortTask(Verify(x))
  {
    MessageFits(x.message);
    assert VerifyCodec().fits(x) == PairOf(GatewayCodec(), ByteVec()).fits(VerifyFields(x));
  }

  lemma ExecuteFits(x: ExecuteTask)
    ensures ExecuteCodec().fits(x) <==> ShortTask(Execute(x))
  {
    MessageFits(x.message);
    TokenFits(x.availableGasBalance);
    TripleFits(GatewayCodec(), ByteVec(), TokenCodec(), ExecuteFields(x));
  }

  lemma RefundFits(x: RefundTask)
    ensures RefundCodec().fits(x) <==> ShortTask(Refund(x))
  {
    MessageFits(x.message);
    TokenFits(x.remainingGasBalance);
    TripleFits(GatewayCodec(), Str(), TokenCodec(), RefundFields(x));
  }

  lemma TaskVariantFits(t: Task)
    ensures TaskFits(TaskVariantCodecs(), t) <==> ShortTask(t)
  {
    match t
    case ConstructProof(x) => ConstructProofFits(x);
    case Verify(x) => VerifyFits(x);
    case GatewayTx(x) => assert GatewayTxCodec().fits(x) == ByteVec().fits(GatewayTxFields(x));
    case Execute(x) => ExecuteFits(x);
    case Refund(x) => RefundFits(x);
  }

  // A task is serialized exactly if all its strings and byte arrays are short enough.
  lemma TaskItemFits(t: TaskItem)
    ensures TaskItemCodec().fits(t) <==> ShortTask(t.task)
  {
    TimestampFits(t.timestamp);
    TaskVariantFits(t.task);
    TripleFits(Id(), Timestamp(), TaskCodec(), TaskItemFields(t));
  }

  lemma GasCreditFits(x: GasCreditEvent)
    ensures GasCreditCodec().fits(x) <==> ShortGasCredit(x)
  {
    BaseFits(Unit(), x.base);
    TokenFits(x.payment);
    FourFits(BaseCodec(Unit()), Str(), Str(), TokenCodec(), GasCreditFields(x));
  }

  lemma GasRefundedFits(x: GasRefundedEvent)
    ensures GasRefundedCodec().fits(x) <==> ShortGasRefunded(x)
  {
    BaseFits(Unit(), x.base);
    TokenFits(x.refundedAmount);
    TokenFits(x.cost);
    FiveFits(BaseCodec(Unit()), Str(), Str(), TokenCodec(), TokenCodec(), GasRefundedFields(x));
  }

  lemma CallBaseFits(b: EventBase<CallEventMetadata>)
    ensures BaseCodec(CallExtraCodec()).fits(b) <==> ShortBase(b, ShortCallExtra)
  {
    BaseFits(CallExtraCodec(), b);
    if b.meta.Some? { CallExtraFits(b.meta.value.extra); }
  }

  lemma ApprovedBaseFits(b: EventBase<MessageApprovedEventMetadata>)
    ensures BaseCodec(ApprovedExtraCodec()).fits(b) <==> ShortBase(b, ShortApprovedExtra)
  {
    BaseFits(ApprovedExtraCodec(), b);
    if b.meta.Some? { ApprovedExtraFits(b.meta.value.extra); }
  }

  lemma ExecutedBaseFits(b: EventBase<MessageExecutedEventMetadata>)
    ensures BaseCodec(ExecutedExtraCodec()).fits(b) <==> ShortBase(b, ShortExecutedExtra)
  {
    BaseFits(ExecutedExtraCodec(), b);
    if b.meta.Some? { ExecutedExtraFits(b.meta.value.extra); }
  }

  lemma CannotExecuteBaseFits(b: EventBase<CannotExecuteMessageEventV2Metadata>)
    ensures BaseCodec(CannotExecuteExtraCodec()).fits(b) <==> ShortBase(b, ShortCannotExecuteExtra)
  {
    BaseFits(CannotExecuteExtraCodec(), b);
    if b.meta.Some? { CannotExecuteExtraFits(b.meta.value.extra); }
  }

  lemma RotatedBaseFits(b: EventBase<SignersRotatedMetadata>)
    ensures BaseCodec(RotatedExtraCodec()).fits(b) <==> ShortBase(b, ShortRotatedExtra)
  {
    BaseFits(RotatedExtraCodec(), b);
    if b.meta.Some? { RotatedExtraFits(b.meta.value.extra); }
  }

  lemma CallFits(x: CallEvent)
    ensures CallCodec().fits(x) <==> ShortCall(x)
  {
    CallBaseFits(x.base);
    MessageFits(x.message);
    FourFits(BaseCodec(CallExtraCodec()), GatewayCodec(), Str(), ByteVec(), CallFields(x));
  }

  lemma ApprovedFits(x: MessageApprovedEvent)
    ensures ApprovedCodec().fits(x) <==> ShortApproved(x)
  {
    ApprovedBaseFits(x.base);
    MessageFits(x.message);
    TokenFits(x.cost);
    TripleFits(BaseCodec(ApprovedExtraCodec()), GatewayCodec(), TokenCodec(), ApprovedFields(x));
  }

  lemma ExecutedFits(x: MessageExecutedEvent)
    ensures ExecutedCodec().fits(x) <==> ShortExecuted(x)
  {
    ExecutedBaseFits(x.base);
    TokenFits(x.cost);
    FiveFits(BaseCodec(ExecutedExtraCodec()), Str(), Str(), StatusCodec(), TokenCodec(), ExecutedFields(x));
  }

  lemma CannotExecuteExtraFits(m: CannotExecuteMessageEventV2Metadata)
    ensures CannotExecuteExtraCodec().fits(m) <==> ShortIfAny(m.fromAddress)
  {
    if m.timestamp.Some? { TimestampFits(m.timestamp.value); }
    TripleFits(OptionOf(Str()), OptionOf(Timestamp()), Id(), CannotExecuteExtraFields(m));
  }

  lemma CannotExecuteFits(x: CannotExecuteMessageEventV2)
    ensures CannotExecuteCodec().fits(x) <==> ShortCannotExecute(x)
  {
    CannotExecuteBaseFits(x.base);
    FiveFits(BaseCodec(CannotExecuteExtraCodec()), Str(), Str(), ReasonCodec(), Str(), CannotExecuteFields(x));
  }

  lemma RotatedFits(x: SignersRotatedEvent)
    ensures RotatedCodec().fits(x) <==> ShortRotated(x)
  {
    RotatedBaseFits(x.base);
    TokenFits(x.cost);
    PairFits(BaseCodec(RotatedExtraCodec()), TokenCodec(), RotatedFields(x));
    assert RotatedCodec().fits(x) == PairOf(BaseCodec(RotatedExtraCodec()), TokenCodec()).fits(RotatedFields(x));
  }

  // What each variant's codec says of its own values.
  predicate VariantsFit(c: EventVariants, e: Event) {
    match e
    case GasCredit(x) => c.gasCredit.fits(x) <==> ShortGasCredit(x)
    case GasRefunded(x) => c.gasRefunded.fits(x) <==> ShortGasRefunded(x)
    case Call(x) => c.call.fits(x) <==> ShortCall(x)
    case MessageApproved(x) => c.approved.fits(x) <==> ShortApproved(x)
    case MessageExecuted(x) => c.executed.fits(x) <==> ShortExecuted(x)
    case CannotExecuteMessageV2(x) => c.cannotExecute.fits(x) <==> ShortCannotExecute(x)
    case SignersRotated(x) => c.rotated.fits(x) <==> ShortRotated(x)
  }

  lemma FitsOfVariants(c: EventVariants, e: Event)
    requires VariantsFit(c, e)
    ensures EventCodecOf(c).fits(e) <==> ShortEvent(e)
  {
  }

  predicate IsGasOrCall(e: Event) {
    e.GasCredit? || e.GasRefunded? || e.Call?
  }

  lemma GasAndCallFit(e: Event)
    requires IsGasOrCall(e)
    ensures VariantsFit(EventVariantCodecs(), e)
  {
    match e
    case GasCredit(x) => GasCreditFits(x);
    case GasRefunded(x) => GasRefundedFits(x);
    case Call(x) => CallFits(x);
  }

  lemma MessageEventsFit(e: Event)
    requires !IsGasOrCall(e)
    ensures VariantsFit(EventVariantCodecs(), e)
  {
    match e
    case MessageApproved(x) => ApprovedFits(x);
    case MessageExecuted(x) => ExecutedFits(x);
    case CannotExecuteMessageV2(x) => CannotExecuteFits(x);
    case SignersRotated(x) => RotatedFits(x);
  }

  // And so is an event.
  lemma EventFitsIff(e: Event)
    ensures EventCodec().fits(e) <==> ShortEvent(e)
  {
    if IsGasOrCall(e) { GasAndCallFit(e); } else { MessageEventsFit(e); }
    FitsOfVariants(EventVariantCodecs(), e);
  }
}

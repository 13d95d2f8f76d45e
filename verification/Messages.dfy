// The events and tasks that the queues carry, and their Borsh codecs. Fields are encoded
// in the order of their declaration; a variant's tag is its position.
module Messages {
  import opened Options
  import opened Decimal
  import opened Borsh
  import opened Texts

  datatype EventMetadata<T> = EventMetadata(txId: Option<Text>, timestamp: Option<DateTime>, fromAddress: Option<Text>,
                                            finalized: Option<bool>, extra: T)

  type MetadataParts<T> = (Option<Text>, Option<DateTime>, Option<Text>, Option<bool>, T)

  function MetadataOf<T>(p: MetadataParts<T>): Option<EventMetadata<T>> {
    Some(EventMetadata(p.0, p.1, p.2, p.3, p.4))
  }

  function MetadataFields<T>(m: EventMetadata<T>): MetadataParts<T> {
    (m.txId, m.timestamp, m.fromAddress, m.finalized, m.extra)
  }

  function MetadataCodec<T>(extra: Codec<T>): Codec<EventMetadata<T>> {
    Via(FiveOf(OptionOf(Str()), OptionOf(Timestamp()), OptionOf(Str()), OptionOf(Flag()), extra), MetadataOf,
        MetadataFields)
  }

  lemma MetadataLawful<T(!new)>(extra: Codec<T>)
    requires Lawful(extra)
    ensures Lawful(MetadataCodec(extra))
  {
    StrLawful();
    TimestampLawful();
    FlagLawful();
    OptionLawful(Str());
    OptionLawful(Timestamp());
    OptionLawful(Flag());
    FiveLawful(OptionOf(Str()), OptionOf(Timestamp()), OptionOf(Str()), OptionOf(Flag()), extra);
    ViaLawful<MetadataParts<T>, EventMetadata<T>>(
      FiveOf(OptionOf(Str()), OptionOf(Timestamp()), OptionOf(Str()), OptionOf(Flag()), extra), MetadataOf,
        MetadataFields);
  }

  datatype EventBase<T> = EventBase(eventId: Text, meta: Option<EventMetadata<T>>)

  function BaseOf<T>(p: (Text, Option<EventMetadata<T>>)): Option<EventBase<T>> {
    Some(EventBase(p.0, p.1))
  }

  function BaseFields<T>(b: EventBase<T>): (Text, Option<EventMetadata<T>>) {
    (b.eventId, b.meta)
  }

  function BaseCodec<T>(extra: Codec<T>): Codec<EventBase<T>> {
    Via(PairOf(Str(), OptionOf(MetadataCodec(extra))), BaseOf, BaseFields)
  }

  lemma BaseLawful<T(!new)>(extra: Codec<T>)
    requires Lawful(extra)
    ensures Lawful(BaseCodec(extra))
  {
    StrLawful();
    MetadataLawful(extra);
    OptionLawful(MetadataCodec(extra));
    PairLawful(Str(), OptionOf(MetadataCodec(extra)));
    ViaLawful<(Text, Option<EventMetadata<T>>), EventBase<T>>(
      PairOf(Str(), OptionOf(MetadataCodec(extra))), BaseOf, BaseFields);
  }

  datatype Token = Token(tokenId: Option<Text>, amount: BigInt)

  function TokenOf(p: (Option<Text>, BigInt)): Option<Token> {
    Some(Token(p.0, p.1))
  }

  function TokenFields(t: Token): (Option<Text>, BigInt) {
    (t.tokenId, t.amount)
  }

  function TokenCodec(): Codec<Token> {
    Via(PairOf(OptionOf(Str()), Amount()), TokenOf, TokenFields)
  }

  lemma TokenLawful()
    ensures Lawful(TokenCodec())
  {
    StrLawful();
    OptionLawful(Str());
    AmountLawful();
    PairLawful(OptionOf(Str()), Amount());
    ViaLawful(PairOf(OptionOf(Str()), Amount()), TokenOf, TokenFields);
  }

  datatype GatewayV2Message = GatewayV2Message(messageId: Text, sourceChain: Text, sourceAddress: Text,
                                               destinationAddress: Text, payloadHash: Bytes)

  function GatewayOf(p: (Text, Text, Text, Text, Bytes)): Option<GatewayV2Message> {
    Some(GatewayV2Message(p.0, p.1, p.2, p.3, p.4))
  }

  function GatewayFields(g: GatewayV2Message): (Text, Text, Text, Text, Bytes) {
    (g.messageId, g.sourceChain, g.sourceAddress, g.destinationAddress, g.payloadHash)
  }

  function GatewayCodec(): Codec<GatewayV2Message> {
    Via(FiveOf(Str(), Str(), Str(), Str(), ByteVec()), GatewayOf, GatewayFields)
  }

  lemma GatewayLawful()
    ensures Lawful(GatewayCodec())
  {
    StrLawful();
    ByteVecLawful();
    FiveLawful(Str(), Str(), Str(), Str(), ByteVec());
    ViaLawful(FiveOf(Str(), Str(), Str(), Str(), ByteVec()), GatewayOf, GatewayFields);
  }

  // What the kinds of events add to their metadata.
  datatype CallEventMetadata = CallEventMetadata(parentMessageId: Option<Text>)

  function CallExtraOf(p: Option<Text>): Option<CallEventMetadata> {
    Some(CallEventMetadata(p))
  }

  function CallExtraFields(c: CallEventMetadata): Option<Text> {
    c.parentMessageId
  }

  function CallExtraCodec(): Codec<CallEventMetadata> {
    Via(OptionOf(Str()), CallExtraOf, CallExtraFields)
  }

  lemma CallExtraLawful()
    ensures Lawful(CallExtraCodec())
  {
    StrLawful();
    OptionLawful(Str());
    ViaLawful(OptionOf(Str()), CallExtraOf, CallExtraFields);
  }

  datatype MessageApprovedEventMetadata = MessageApprovedEventMetadata(commandId: Option<Text>)

  function ApprovedExtraOf(p: Option<Text>): Option<MessageApprovedEventMetadata> {
    Some(MessageApprovedEventMetadata(p))
  }

  function ApprovedExtraFields(a: MessageApprovedEventMetadata): Option<Text> {
    a.commandId
  }

  function ApprovedExtraCodec(): Codec<MessageApprovedEventMetadata> {
    Via(OptionOf(Str()), ApprovedExtraOf, ApprovedExtraFields)
  }

  lemma ApprovedExtraLawful()
    ensures Lawful(ApprovedExtraCodec())
  {
    StrLawful();
    OptionLawful(Str());
    ViaLawful(OptionOf(Str()), ApprovedExtraOf, ApprovedExtraFields);
  }

  datatype MessageExecutedEventMetadata = MessageExecutedEventMetadata(
    commandId: Option<Text>, childMessageIds: Option<seq<Text>>)

  function ExecutedExtraOf(p: (Option<Text>, Option<seq<Text>>)): Option<MessageExecutedEventMetadata> {
    Some(MessageExecutedEventMetadata(p.0, p.1))
  }

  function ExecutedExtraFields(e: MessageExecutedEventMetadata): (Option<Text>, Option<seq<Text>>) {
    (e.commandId, e.childMessageIds)
  }

  function ExecutedExtraCodec(): Codec<MessageExecutedEventMetadata> {
    Via(PairOf(OptionOf(Str()), OptionOf(VecOf(Str()))), ExecutedExtraOf, ExecutedExtraFields)
  }

  lemma ExecutedExtraLawful()
    ensures Lawful(ExecutedExtraCodec())
  {
    StrLawful();
    OptionLawful(Str());
    VecLawful(Str());
    OptionLawful(VecOf(Str()));
    PairLawful(OptionOf(Str()), OptionOf(VecOf(Str())));
    ViaLawful(PairOf(OptionOf(Str()), OptionOf(VecOf(Str()))), ExecutedExtraOf, ExecutedExtraFields);
  }

  datatype CannotExecuteMessageEventV2Metadata = CannotExecuteMessageEventV2Metadata(
    fromAddress: Option<Text>, timestamp: Option<DateTime>, taskItemId: Uuid)

  function CannotExecuteExtraOf(p: (Option<Text>, Option<DateTime>, Uuid))
    : Option<CannotExecuteMessageEventV2Metadata>
  {
    Some(CannotExecuteMessageEventV2Metadata(p.0, p.1, p.2))
  }

  function CannotExecuteExtraFields(c: CannotExecuteMessageEventV2Metadata): (Option<Text>, Option<DateTime>, Uuid) {
    (c.fromAddress, c.timestamp, c.taskItemId)
  }

  function CannotExecuteExtraCodec(): Codec<CannotExecuteMessageEventV2Metadata> {
    Via(TripleOf(OptionOf(Str()), OptionOf(Timestamp()), Id()), CannotExecuteExtraOf, CannotExecuteExtraFields)
  }

  lemma CannotExecuteExtraLawful()
    ensures Lawful(CannotExecuteExtraCodec())
  {
    StrLawful();
    OptionLawful(Str());
    TimestampLawful();
    OptionLawful(Timestamp());
    IdLawful();
    TripleLawful(OptionOf(Str()), OptionOf(Timestamp()), Id());
    ViaLawful(TripleOf(OptionOf(Str()), OptionOf(Timestamp()), Id()), CannotExecuteExtraOf, CannotExecuteExtraFields);
  }

  datatype SignersRotatedMetadata = SignersRotatedMetadata(signerHash: Bytes, epoch: U64)

  function RotatedExtraOf(p: (Bytes, U64)): Option<SignersRotatedMetadata> {
    Some(SignersRotatedMetadata(p.0, p.1))
  }

  function RotatedExtraFields(r: SignersRotatedMetadata): (Bytes, U64) {
    (r.signerHash, r.epoch)
  }

  function RotatedExtraCodec(): Codec<SignersRotatedMetadata> {
    Via(PairOf(ByteVec(), Unsigned64()), RotatedExtraOf, RotatedExtraFields)
  }

  lemma RotatedExtraLawful()
    ensures Lawful(RotatedExtraCodec())
  {
    ByteVecLawful();
    Unsigned64Lawful();
    PairLawful(ByteVec(), Unsigned64());
    ViaLawful(PairOf(ByteVec(), Unsigned64()), RotatedExtraOf, RotatedExtraFields);
  }

  // The kinds of events.
  datatype GasCreditEvent = GasCreditEvent(base: EventBase<()>, messageId: Text, refundAddress: Text, payment: Token)

  function GasCreditOf(p: (EventBase<()>, Text, Text, Token)): Option<GasCreditEvent> {
    Some(GasCreditEvent(p.0, p.1, p.2, p.3))
  }

  function GasCreditFields(g: GasCreditEvent): (EventBase<()>, Text, Text, Token) {
    (g.base, g.messageId, g.refundAddress, g.payment)
  }

  function GasCreditCodec(): Codec<GasCreditEvent> {
    Via(FourOf(BaseCodec(Unit()), Str(), Str(), TokenCodec()), GasCreditOf, GasCreditFields)
  }

  lemma GasCreditLawful()
    ensures Lawful(GasCreditCodec())
  {
    UnitLawful();
    BaseLawful(Unit());
    StrLawful();
    TokenLawful();
    FourLawful(BaseCodec(Unit()), Str(), Str(), TokenCodec());
    ViaLawful(FourOf(BaseCodec(Unit()), Str(), Str(), TokenCodec()), GasCreditOf, GasCreditFields);
  }

  datatype GasRefundedEvent = GasRefundedEvent(base: EventBase<()>, messageId: Text, recipientAddress: Text,
                                               refundedAmount: Token, cost: Token)

  function GasRefundedOf(p: (EventBase<()>, Text, Text, Token, Token)): Option<GasRefundedEvent> {
    Some(GasRefundedEvent(p.0, p.1, p.2, p.3, p.4))
  }

  function GasRefundedFields(g: GasRefundedEvent): (EventBase<()>, Text, Text, Token, Token) {
    (g.base, g.messageId, g.recipientAddress, g.refundedAmount, g.cost)
  }

  function GasRefundedCodec(): Codec<GasRefundedEvent> {
    Via(FiveOf(BaseCodec(Unit()), Str(), Str(), TokenCodec(), TokenCodec()), GasRefundedOf, GasRefundedFields)
  }

  lemma GasRefundedLawful()
    ensures Lawful(GasRefundedCodec())
  {
    UnitLawful();
    BaseLawful(Unit());
    StrLawful();
    TokenLawful();
    FiveLawful(BaseCodec(Unit()), Str(), Str(), TokenCodec(), TokenCodec());
    ViaLawful(FiveOf(BaseCodec(Unit()), Str(), Str(), TokenCodec(), TokenCodec()), GasRefundedOf, GasRefundedFields);
  }

  datatype CallEvent = CallEvent(base: EventBase<CallEventMetadata>, message: GatewayV2Message,
                                 destinationChain: Text, payload: Bytes)

  function CallOf(p: (EventBase<CallEventMetadata>, GatewayV2Message, Text, Bytes)): Option<CallEvent> {
    Some(CallEvent(p.0, p.1, p.2, p.3))
  }

  function CallFields(c: CallEvent): (EventBase<CallEventMetadata>, GatewayV2Message, Text, Bytes) {
    (c.base, c.message, c.destinationChain, c.payload)
  }

  function CallCodec(): Codec<CallEvent> {
    Via(FourOf(BaseCodec(CallExtraCodec()), GatewayCodec(), Str(), ByteVec()), CallOf, CallFields)
  }

  lemma CallLawful()
    ensures Lawful(CallCodec())
  {
    CallExtraLawful();
    BaseLawful(CallExtraCodec());
    GatewayLawful();
    StrLawful();
    ByteVecLawful();
    FourLawful(BaseCodec(CallExtraCodec()), GatewayCodec(), Str(), ByteVec());
    ViaLawful(FourOf(BaseCodec(CallExtraCodec()), GatewayCodec(), Str(), ByteVec()), CallOf, CallFields);
  }

  datatype MessageApprovedEvent = MessageApprovedEvent(base: EventBase<MessageApprovedEventMetadata>,
                                                       message: GatewayV2Message, cost: Token)

  function ApprovedOf(p: (EventBase<MessageApprovedEventMetadata>, GatewayV2Message, Token))
    : Option<MessageApprovedEvent>
  {
    Some(MessageApprovedEvent(p.0, p.1, p.2))
  }

  function ApprovedFields(a: MessageApprovedEvent): (EventBase<MessageApprovedEventMetadata>, GatewayV2Message, Token) {
    (a.base, a.message, a.cost)
  }

  function ApprovedCodec(): Codec<MessageApprovedEvent> {
    Via(TripleOf(BaseCodec(ApprovedExtraCodec()), GatewayCodec(), TokenCodec()), ApprovedOf, ApprovedFields)
  }

  lemma ApprovedLawful()
    ensures Lawful(ApprovedCodec())
  {
    ApprovedExtraLawful();
    BaseLawful(ApprovedExtraCodec());
    GatewayLawful();
    TokenLawful();
    TripleLawful(BaseCodec(ApprovedExtraCodec()), GatewayCodec(), TokenCodec());
    ViaLawful(TripleOf(BaseCodec(ApprovedExtraCodec()), GatewayCodec(), TokenCodec()), ApprovedOf, ApprovedFields);
  }

  datatype MessageExecutionStatus = Successful | Reverted

  function StatusOf(n: nat): Option<MessageExecutionStatus> {
    if n == 0 then Some(Successful) else if n == 1 then Some(Reverted) else None
  }

  function StatusCodec(): Codec<MessageExecutionStatus> {
    Via(Fixed(1), StatusOf, (s: MessageExecutionStatus) => if s.Successful? then 0 else 1)
  }

  lemma StatusLawful()
    ensures Lawful(StatusCodec())
  {
    FixedLawful(1);
    ViaLawful(Fixed(1), StatusOf, (s: MessageExecutionStatus) => if s.Successful? then 0 else 1);
  }

  datatype MessageExecutedEvent = MessageExecutedEvent(base: EventBase<MessageExecutedEventMetadata>,
                                                       messageId: Text, sourceChain: Text,
                                                       status: MessageExecutionStatus, cost: Token)

  function ExecutedOf(p: (EventBase<MessageExecutedEventMetadata>, Text, Text, MessageExecutionStatus, Token))
    : Option<MessageExecutedEvent>
  {
    Some(MessageExecutedEvent(p.0, p.1, p.2, p.3, p.4))
  }

  function ExecutedFields(e: MessageExecutedEvent)
    : (EventBase<MessageExecutedEventMetadata>, Text, Text, MessageExecutionStatus, Token)
  {
    (e.base, e.messageId, e.sourceChain, e.status, e.cost)
  }

  function ExecutedCodec(): Codec<MessageExecutedEvent> {
    Via(FiveOf(BaseCodec(ExecutedExtraCodec()), Str(), Str(), StatusCodec(), TokenCodec()), ExecutedOf, ExecutedFields)
  }

  lemma ExecutedLawful()
    ensures Lawful(ExecutedCodec())
  {
    ExecutedExtraLawful();
    BaseLawful(ExecutedExtraCodec());
    StrLawful();
    StatusLawful();
    TokenLawful();
    FiveLawful(BaseCodec(ExecutedExtraCodec()), Str(), Str(), StatusCodec(), TokenCodec());
    ViaLawful(FiveOf(BaseCodec(ExecutedExtraCodec()), Str(), Str(), StatusCodec(), TokenCodec()), ExecutedOf,
              ExecutedFields);
  }

  datatype CannotExecuteMessageReason = InsufficientGas | Error

  function ReasonOf(n: nat): Option<CannotExecuteMessageReason> {
    if n == 0 then Some(InsufficientGas) else if n == 1 then Some(Error) else None
  }

  function ReasonCodec(): Codec<CannotExecuteMessageReason> {
    Via(Fixed(1), ReasonOf, (r: CannotExecuteMessageReason) => if r.InsufficientGas? then 0 else 1)
  }

  lemma ReasonLawful()
    ensures Lawful(ReasonCodec())
  {
    FixedLawful(1);
    ViaLawful(Fixed(1), ReasonOf, (r: CannotExecuteMessageReason) => if r.InsufficientGas? then 0 else 1);
  }

  datatype CannotExecuteMessageEventV2 = CannotExecuteMessageEventV2(
    base: EventBase<CannotExecuteMessageEventV2Metadata>, messageId: Text, sourceChain: Text,
    reason: CannotExecuteMessageReason, details: Text)

  function CannotExecuteOf(p: (EventBase<CannotExecuteMessageEventV2Metadata>, Text, Text,
                               CannotExecuteMessageReason, Text))
    : Option<CannotExecuteMessageEventV2>
  {
    Some(CannotExecuteMessageEventV2(p.0, p.1, p.2, p.3, p.4))
  }

  function CannotExecuteFields(c: CannotExecuteMessageEventV2)
    : (EventBase<CannotExecuteMessageEventV2Metadata>, Text, Text, CannotExecuteMessageReason, Text)
  {
    (c.base, c.messageId, c.sourceChain, c.reason, c.details)
  }

  function CannotExecuteCodec(): Codec<CannotExecuteMessageEventV2> {
    Via(FiveOf(BaseCodec(CannotExecuteExtraCodec()), Str(), Str(), ReasonCodec(), Str()), CannotExecuteOf,
        CannotExecuteFields)
  }

  lemma CannotExecuteLawful()
    ensures Lawful(CannotExecuteCodec())
  {
    CannotExecuteExtraLawful();
    BaseLawful(CannotExecuteExtraCodec());
    StrLawful();
    ReasonLawful();
    FiveLawful(BaseCodec(CannotExecuteExtraCodec()), Str(), Str(), ReasonCodec(), Str());
    ViaLawful(FiveOf(BaseCodec(CannotExecuteExtraCodec()), Str(), Str(), ReasonCodec(), Str()), CannotExecuteOf,
              CannotExecuteFields);
  }

  datatype SignersRotatedEvent = SignersRotatedEvent(base: EventBase<SignersRotatedMetadata>, cost: Token)

  function RotatedOf(p: (EventBase<SignersRotatedMetadata>, Token)): Option<SignersRotatedEvent> {
    Some(SignersRotatedEvent(p.0, p.1))
  }

  function RotatedFields(r: SignersRotatedEvent): (EventBase<SignersRotatedMetadata>, Token) {
    (r.base, r.cost)
  }

  function RotatedCodec(): Codec<SignersRotatedEvent> {
    Via(PairOf(BaseCodec(RotatedExtraCodec()), TokenCodec()), RotatedOf, RotatedFields)
  }

  lemma RotatedLawful()
    ensures Lawful(RotatedCodec())
  {
    RotatedExtraLawful();
    BaseLawful(RotatedExtraCodec());
    TokenLawful();
    PairLawful(BaseCodec(RotatedExtraCodec()), TokenCodec());
    ViaLawful(PairOf(BaseCodec(RotatedExtraCodec()), TokenCodec()), RotatedOf, RotatedFields);
  }

  datatype Event =
    | GasCredit(gasCredit: GasCreditEvent)
    | GasRefunded(gasRefunded: GasRefundedEvent)
    | Call(call: CallEvent)
    | MessageApproved(approved: MessageApprovedEvent)
    | MessageExecuted(executed: MessageExecutedEvent)
    | CannotExecuteMessageV2(cannotExecute: CannotExecuteMessageEventV2)
    | SignersRotated(rotated: SignersRotatedEvent)

  // The codecs of the variants.
  datatype EventVariants = EventVariants(
    gasCredit: Codec<GasCreditEvent>,
    gasRefunded: Codec<GasRefundedEvent>,
    call: Codec<CallEvent>,
    approved: Codec<MessageApprovedEvent>,
    executed: Codec<MessageExecutedEvent>,
    cannotExecute: Codec<CannotExecuteMessageEventV2>,
    rotated: Codec<SignersRotatedEvent>)

  function EventVariantCodecs(): EventVariants {
    EventVariants(GasCreditCodec(), GasRefundedCodec(), CallCodec(), ApprovedCodec(), ExecutedCodec(),
                  CannotExecuteCodec(), RotatedCodec())
  }

  predicate EventFits(c: EventVariants, e: Event) {
    match e
    case GasCredit(x) => c.gasCredit.fits(x)
    case GasRefunded(x) => c.gasRefunded.fits(x)
    case Call(x) => c.call.fits(x)
    case MessageApproved(x) => c.approved.fits(x)
    case MessageExecuted(x) => c.executed.fits(x)
    case CannotExecuteMessageV2(x) => c.cannotExecute.fits(x)
    case SignersRotated(x) => c.rotated.fits(x)
  }

  function EncodeEvent(c: EventVariants, e: Event): Option<Bytes> {
    match e
    case GasCredit(x) => Tag(0, c.gasCredit, x)
    case GasRefunded(x) => Tag(1, c.gasRefunded, x)
    case Call(x) => Tag(2, c.call, x)
    case MessageApproved(x) => Tag(3, c.approved, x)
    case MessageExecuted(x) => Tag(4, c.executed, x)
    case CannotExecuteMessageV2(x) => Tag(5, c.cannotExecute, x)
    case SignersRotated(x) => Tag(6, c.rotated, x)
  }

  function DecodeEvent(c: EventVariants, s: Bytes): Option<(Event, Bytes)> {
    if s == [] then None
    else
      match s[0]
      case 0 => Mapped(c.gasCredit.decode(s[1..]), (x: GasCreditEvent) => Some(GasCredit(x)))
      case 1 => Mapped(c.gasRefunded.decode(s[1..]), (x: GasRefundedEvent) => Some(GasRefunded(x)))
      case 2 => Mapped(c.call.decode(s[1..]), (x: CallEvent) => Some(Call(x)))
      case 3 => Mapped(c.approved.decode(s[1..]), (x: MessageApprovedEvent) => Some(MessageApproved(x)))
      case 4 => Mapped(c.executed.decode(s[1..]), (x: MessageExecutedEvent) => Some(MessageExecuted(x)))
      case 5 => Mapped(c.cannotExecute.decode(s[1..]),
                       (x: CannotExecuteMessageEventV2) => Some(CannotExecuteMessageV2(x)))
      case 6 => Mapped(c.rotated.decode(s[1..]), (x: SignersRotatedEvent) => Some(SignersRotated(x)))
      case _ => None
  }

  ghost predicate EventVariantsLawful(c: EventVariants) {
    && Lawful(c.gasCredit)
    && Lawful(c.gasRefunded)
    && Lawful(c.call)
    && Lawful(c.approved)
    && Lawful(c.executed)
    && Lawful(c.cannotExecute)
    && Lawful(c.rotated)
  }

  lemma EventRoundTrip(c: EventVariants, e: Event, rest: Bytes)
    requires EventVariantsLawful(c) && EncodeEvent(c, e).Some?
    ensures DecodeEvent(c, EncodeEvent(c, e).value + rest) == Some((e, rest))
  {
    var s := EncodeEvent(c, e).value + rest;
    assert s != [];
    match e
    case GasCredit(x) => TagRoundTrip(0, c.gasCredit, x, rest);
    case GasRefunded(x) => TagRoundTrip(1, c.gasRefunded, x, rest);
    case Call(x) => TagRoundTrip(2, c.call, x, rest);
    case MessageApproved(x) => TagRoundTrip(3, c.approved, x, rest);
    case MessageExecuted(x) => TagRoundTrip(4, c.executed, x, rest);
    case CannotExecuteMessageV2(x) => TagRoundTrip(5, c.cannotExecute, x, rest);
    case SignersRotated(x) => TagRoundTrip(6, c.rotated, x, rest);
  }

  function EventCodecOf(c: EventVariants): Codec<Event> {
    Codec((e: Event) => EventFits(c, e), (e: Event) => EncodeEvent(c, e), (s: Bytes) => DecodeEvent(c, s))
  }

  lemma EventCodecLawful(c: EventVariants)
    requires EventVariantsLawful(c)
    ensures Lawful(EventCodecOf(c))
  {
    var codec := EventCodecOf(c);
    forall e: Event, rest: Bytes | codec.encode(e).Some?
      ensures codec.decode(codec.encode(e).value + rest) == Some((e, rest))
    {
      EventRoundTrip(c, e, rest);
    }
  }

  function EventCodec(): Codec<Event> {
    EventCodecOf(EventVariantCodecs())
  }

  lemma EventLawful()
    ensures Lawful(EventCodec())
  {
    GasCreditLawful();
    GasRefundedLawful();
    CallLawful();
    ApprovedLawful();
    ExecutedLawful();
    CannotExecuteLawful();
    RotatedLawful();
    EventCodecLawful(EventVariantCodecs());
  }

  // An event's id is that of its base.
  function EventId(e: Event): Text {
    match e
    case GasCredit(x) => x.base.eventId
    case GasRefunded(x) => x.base.eventId
    case Call(x) => x.base.eventId
    case MessageApproved(x) => x.base.eventId
    case MessageExecuted(x) => x.base.eventId
    case CannotExecuteMessageV2(x) => x.base.eventId
    case SignersRotated(x) => x.base.eventId
  }

  // The kinds of tasks.
  datatype ConstructProofTask = ConstructProofTask(message: GatewayV2Message, payload: Bytes)

  function ConstructProofOf(p: (GatewayV2Message, Bytes)): Option<ConstructProofTask> {
    Some(ConstructProofTask(p.0, p.1))
  }

  function ConstructProofFields(c: ConstructProofTask): (GatewayV2Message, Bytes) {
    (c.message, c.payload)
  }

  function ConstructProofCodec(): Codec<ConstructProofTask> {
    Via(PairOf(GatewayCodec(), ByteVec()), ConstructProofOf, ConstructProofFields)
  }

  lemma ConstructProofLawful()
    ensures Lawful(ConstructProofCodec())
  {
    GatewayLawful();
    ByteVecLawful();
    PairLawful(GatewayCodec(), ByteVec());
    ViaLawful(PairOf(GatewayCodec(), ByteVec()), ConstructProofOf, ConstructProofFields);
  }

  datatype VerifyTask = VerifyTask(message: GatewayV2Message, payload: Bytes)

  function VerifyOf(p: (GatewayV2Message, Bytes)): Option<VerifyTask> {
    Some(VerifyTask(p.0, p.1))
  }

  function VerifyFields(v: VerifyTask): (GatewayV2Message, Bytes) {
    (v.message, v.payload)
  }

  function VerifyCodec(): Codec<VerifyTask> {
    Via(PairOf(GatewayCodec(), ByteVec()), VerifyOf, VerifyFields)
  }

  lemma VerifyLawful()
    ensures Lawful(VerifyCodec())
  {
    GatewayLawful();
    ByteVecLawful();
    PairLawful(GatewayCodec(), ByteVec());
    ViaLawful(PairOf(GatewayCodec(), ByteVec()), VerifyOf, VerifyFields);
  }

  datatype GatewayTransactionTask = GatewayTransactionTask(executeData: Bytes)

  function GatewayTxOf(p: Bytes): Option<GatewayTransactionTask> {
    Some(GatewayTransactionTask(p))
  }

  function GatewayTxFields(g: GatewayTransactionTask): Bytes {
    g.executeData
  }

  function GatewayTxCodec(): Codec<GatewayTransactionTask> {
    Via(ByteVec(), GatewayTxOf, GatewayTxFields)
  }

  lemma GatewayTxLawful()
    ensures Lawful(GatewayTxCodec())
  {
    ByteVecLawful();
    ViaLawful(ByteVec(), GatewayTxOf, GatewayTxFields);
  }

  datatype ExecuteTask = ExecuteTask(message: GatewayV2Message, payload: Bytes, availableGasBalance: Token)

  function ExecuteOf(p: (GatewayV2Message, Bytes, Token)): Option<ExecuteTask> {
    Some(ExecuteTask(p.0, p.1, p.2))
  }

  function ExecuteFields(e: ExecuteTask): (GatewayV2Message, Bytes, Token) {
    (e.message, e.payload, e.availableGasBalance)
  }

  function ExecuteCodec(): Codec<ExecuteTask> {
    Via(TripleOf(GatewayCodec(), ByteVec(), TokenCodec()), ExecuteOf, ExecuteFields)
  }

  lemma ExecuteLawful()
    ensures Lawful(ExecuteCodec())
  {
    GatewayLawful();
    ByteVecLawful();
    TokenLawful();
    TripleLawful(GatewayCodec(), ByteVec(), TokenCodec());
    ViaLawful(TripleOf(GatewayCodec(), ByteVec(), TokenCodec()), ExecuteOf, ExecuteFields);
  }

  datatype RefundTask = RefundTask(message: GatewayV2Message, refundRecipientAddress: Text, remainingGasBalance: Token)

  function RefundOf(p: (GatewayV2Message, Text, Token)): Option<RefundTask> {
    Some(RefundTask(p.0, p.1, p.2))
  }

  function RefundFields(r: RefundTask): (GatewayV2Message, Text, Token) {
    (r.message, r.refundRecipientAddress, r.remainingGasBalance)
  }

  function RefundCodec(): Codec<RefundTask> {
    Via(TripleOf(GatewayCodec(), Str(), TokenCodec()), RefundOf, RefundFields)
  }

  lemma RefundLawful()
    ensures Lawful(RefundCodec())
  {
    GatewayLawful();
    StrLawful();
    TokenLawful();
    TripleLawful(GatewayCodec(), Str(), TokenCodec());
    ViaLawful(TripleOf(GatewayCodec(), Str(), TokenCodec()), RefundOf, RefundFields);
  }

  datatype Task =
    | ConstructProof(constructProof: ConstructProofTask)
    | Verify(verify: VerifyTask)
    | GatewayTx(gatewayTx: GatewayTransactionTask)
    | Execute(execute: ExecuteTask)
    | Refund(refund: RefundTask)

  // The codecs of the variants.
  datatype TaskVariants = TaskVariants(
    constructProof: Codec<ConstructProofTask>,
    verify: Codec<VerifyTask>,
    gatewayTx: Codec<GatewayTransactionTask>,
    execute: Codec<ExecuteTask>,
    refund: Codec<RefundTask>)

  function TaskVariantCodecs(): TaskVariants {
    TaskVariants(ConstructProofCodec(), VerifyCodec(), GatewayTxCodec(), ExecuteCodec(), RefundCodec())
  }

  predicate TaskFits(c: TaskVariants, t: Task) {
    match t
    case ConstructProof(x) => c.constructProof.fits(x)
    case Verify(x) => c.verify.fits(x)
    case GatewayTx(x) => c.gatewayTx.fits(x)
    case Execute(x) => c.execute.fits(x)
    case Refund(x) => c.refund.fits(x)
  }

  function EncodeTask(c: TaskVariants, t: Task): Option<Bytes> {
    match t
    case ConstructProof(x) => Tag(0, c.constructProof, x)
    case Verify(x) => Tag(1, c.verify, x)
    case GatewayTx(x) => Tag(2, c.gatewayTx, x)
    case Execute(x) => Tag(3, c.execute, x)
    case Refund(x) => Tag(4, c.refund, x)
  }

  function DecodeTask(c: TaskVariants, s: Bytes): Option<(Task, Bytes)> {
    if s == [] then None
    else
      match s[0]
      case 0 => Mapped(c.constructProof.decode(s[1..]), (x: ConstructProofTask) => Some(ConstructProof(x)))
      case 1 => Mapped(c.verify.decode(s[1..]), (x: VerifyTask) => Some(Verify(x)))
      case 2 => Mapped(c.gatewayTx.decode(s[1..]), (x: GatewayTransactionTask) => Some(GatewayTx(x)))
      case 3 => Mapped(c.execute.decode(s[1..]), (x: ExecuteTask) => Some(Execute(x)))
      case 4 => Mapped(c.refund.decode(s[1..]), (x: RefundTask) => Some(Refund(x)))
      case _ => None
  }

  ghost predicate TaskVariantsLawful(c: TaskVariants) {
    && Lawful(c.constructProof)
    && Lawful(c.verify)
    && Lawful(c.gatewayTx)
    && Lawful(c.execute)
    && Lawful(c.refund)
  }

  lemma TaskRoundTrip(c: TaskVariants, t: Task, rest: Bytes)
    requires TaskVariantsLawful(c) && EncodeTask(c, t).Some?
    ensures DecodeTask(c, EncodeTask(c, t).value + rest) == Some((t, rest))
  {
    var s := EncodeTask(c, t).value + rest;
    assert s != [];
    match t
    case ConstructProof(x) => TagRoundTrip(0, c.constructProof, x, rest);
    case Verify(x) => TagRoundTrip(1, c.verify, x, rest);
    case GatewayTx(x) => TagRoundTrip(2, c.gatewayTx, x, rest);
    case Execute(x) => TagRoundTrip(3, c.execute, x, rest);
    case Refund(x) => TagRoundTrip(4, c.refund, x, rest);
  }

  function TaskCodecOf(c: TaskVariants): Codec<Task> {
    Codec((t: Task) => TaskFits(c, t), (t: Task) => EncodeTask(c, t), (s: Bytes) => DecodeTask(c, s))
  }

  lemma TaskCodecLawful(c: TaskVariants)
    requires TaskVariantsLawful(c)
    ensures Lawful(TaskCodecOf(c))
  {
    var codec := TaskCodecOf(c);
    forall t: Task, rest: Bytes | codec.encode(t).Some?
      ensures codec.decode(codec.encode(t).value + rest) == Some((t, rest))
    {
      TaskRoundTrip(c, t, rest);
    }
  }

  function TaskCodec(): Codec<Task> {
    TaskCodecOf(TaskVariantCodecs())
  }

  lemma TaskLawful()
    ensures Lawful(TaskCodec())
  {
    ConstructProofLawful();
    VerifyLawful();
    GatewayTxLawful();
    ExecuteLawful();
    RefundLawful();
    TaskCodecLawful(TaskVariantCodecs());
  }

  datatype TaskItem = TaskItem(id: Uuid, timestamp: DateTime, task: Task)

  function TaskItemOf(p: (Uuid, DateTime, Task)): Option<TaskItem> {
    Some(TaskItem(p.0, p.1, p.2))
  }

  function TaskItemFields(t: TaskItem): (Uuid, DateTime, Task) {
    (t.id, t.timestamp, t.task)
  }

  function TaskItemCodec(): Codec<TaskItem> {
    Via(TripleOf(Id(), Timestamp(), TaskCodec()), TaskItemOf, TaskItemFields)
  }

  lemma TaskItemLawful()
    ensures Lawful(TaskItemCodec())
  {
    IdLawful();
    TimestampLawful();
    TaskLawful();
    TripleLawful(Id(), Timestamp(), TaskCodec());
    ViaLawful(TripleOf(Id(), Timestamp(), TaskCodec()), TaskItemOf, TaskItemFields);
  }
}

// The Pub/Sub message envelope: what the publisher makes of a message, and what the
// consumer reads back.
module Envelope {
  import opened Options
  import opened Decimal
  import opened Borsh
  import opened Texts
  import opened Limits
  import opened Messages

  type Headers = map<Text, Text>

  type Listing = seq<(Text, Text)>

  const MSG_ID := "Msg-Id"

  // "correlation-id"
  function CorrelationId(): Text {
    var key: Bytes := [99, 111, 114, 114, 101, 108, 97, 116, 105, 111, 110, 45, 105, 100];
    AsciiIsUtf8(key);
    key
  }

  datatype PublishMessage<T> = PublishMessage(deduplicationId: Text, data: T)

  datatype PubsubMessage = PubsubMessage(data: Bytes, attributes: map<string, Text>)

  datatype GcpMessage<T> = GcpMessage(id: Text, headers: Headers, decoded: T)

  datatype GcpError = Serialize | MsgIdNotSet | Deserialize

  // Headers are written in some order of their keys, and collected again one by one.
  ghost predicate IsListing(l: Listing, m: Headers) {
    && (forall i, j :: 0 <= i < j < |l| ==> l[i].0 != l[j].0)
    && (forall i :: 0 <= i < |l| ==> l[i].0 in m && m[l[i].0] == l[i].1)
    && (forall k :: k in m ==> exists i :: 0 <= i < |l| && l[i].0 == k)
  }

  function Collected(m: Headers, l: Listing): Headers
    decreases |l|
  {
    if l == [] then m else Collected(m[l[0].0 := l[0].1], l[1..])
  }

  lemma {:induction false} CollectedAt(m: Headers, l: Listing, k: Text)
    requires forall i, j :: 0 <= i < j < |l| ==> l[i].0 != l[j].0
    ensures forall i :: 0 <= i < |l| && l[i].0 == k ==> k in Collected(m, l) && Collected(m, l)[k] == l[i].1
    ensures (forall i :: 0 <= i < |l| ==> l[i].0 != k) ==>
      (k in Collected(m, l) <==> k in m) && (k in m ==> Collected(m, l)[k] == m[k])
    decreases |l|
  {
    if l != [] {
      CollectedAt(m[l[0].0 := l[0].1], l[1..], k);
      assert forall i :: 0 < i < |l| ==> l[i] == l[1..][i - 1];
      if l[0].0 == k { assert forall i :: 0 <= i < |l[1..]| ==> l[1..][i].0 != k; }
    }
  }

  lemma CollectedListing(l: Listing, m: Headers)
    requires IsListing(l, m)
    ensures Collected(map[], l) == m
  {
    forall k ensures (k in Collected(map[], l) <==> k in m) && (k in m ==> Collected(map[], l)[k] == m[k]) {
      CollectedAt(map[], l, k);
    }
  }

  // Keys that are not set stay as they were; of a key's values the last one stays.
  lemma {:induction false} CollectedUnset(m: Headers, l: Listing, k: Text)
    requires forall i :: 0 <= i < |l| ==> l[i].0 != k
    ensures k in Collected(m, l) <==> k in m
    ensures k in m ==> Collected(m, l)[k] == m[k]
    decreases |l|
  {
    if l != [] { CollectedUnset(m[l[0].0 := l[0].1], l[1..], k); }
  }

  lemma {:induction false} CollectedLast(m: Headers, l: Listing, i: nat)
    requires i < |l| && forall j :: i < j < |l| ==> l[j].0 != l[i].0
    ensures l[i].0 in Collected(m, l) && Collected(m, l)[l[i].0] == l[i].1
    decreases |l|
  {
    var rest := l[1..];
    if i == 0 {
      CollectedUnset(m[l[0].0 := l[0].1], rest, l[0].0);
    } else {
      assert rest[i - 1] == l[i];
      CollectedLast(m[l[0].0 := l[0].1], rest, i - 1);
    }
  }

  function ContentCodec<T>(c: Codec<T>): Codec<(Listing, T)> {
    PairOf(VecOf(PairOf(Str(), Str())), c)
  }

  lemma ContentLawful<T(!new)>(c: Codec<T>)
    requires Lawful(c)
    ensures Lawful(ContentCodec(c))
  {
    StrLawful();
    PairLawful(Str(), Str());
    VecLawful(PairOf(Str(), Str()));
    PairLawful(VecOf(PairOf(Str(), Str())), c);
  }

  // Bytes behind the content are ignored.
  function Decode<T>(c: Codec<T>, msg: PubsubMessage): Result<GcpMessage<T>, GcpError> {
    if MSG_ID !in msg.attributes then Err(MsgIdNotSet)
    else
      match ContentCodec(c).decode(msg.data)
      case None => Err(Deserialize)
      case Some((content, _)) => Ok(GcpMessage(msg.attributes[MSG_ID], Collected(map[], content.0), content.1))
  }

  function Serialized(data: Option<Bytes>, id: Text): Result<PubsubMessage, GcpError> {
    match data
    case None => Err(Serialize)
    case Some(encoded) => Ok(PubsubMessage(encoded, map[MSG_ID := id]))
  }

  function Published<T>(c: Codec<T>, msg: PublishMessage<T>, l: Listing): Result<PubsubMessage, GcpError> {
    Serialized(ContentCodec(c).encode((l, msg.data)), msg.deduplicationId)
  }

  // The consumer reads the id, the headers and the data back, in whatever order the
  // headers were written, and whatever follows.
  lemma EnvelopeRoundTrip<T(!new)>(c: Codec<T>, msg: PublishMessage<T>, l: Listing, headers: Headers, extra: Bytes)
    requires Lawful(c) && IsListing(l, headers) && Published(c, msg, l).Ok?
    ensures var sent := Published(c, msg, l).value;
            Decode(c, sent.(data := sent.data + extra)) == Ok(GcpMessage(msg.deduplicationId, headers, msg.data))
  {
    ContentLawful(c);
    CollectedListing(l, headers);
    var content := (l, msg.data);
    assert ContentCodec(c).decode(ContentCodec(c).encode(content).value + extra) == Some((content, extra));
  }

  function FromEvent(e: Event): PublishMessage<Event> {
    PublishMessage(EventId(e), e)
  }

  function FromTask(t: TaskItem): PublishMessage<TaskItem> {
    PublishMessage(UuidText(t.id), t)
  }

  lemma Arrives<T(!new)>(c: Codec<T>, msg: PublishMessage<T>, l: Listing, headers: Headers)
    requires Lawful(c) && IsListing(l, headers) && Published(c, msg, l).Ok?
    ensures Decode(c, Published(c, msg, l).value) == Ok(GcpMessage(msg.deduplicationId, headers, msg.data))
  {
    EnvelopeRoundTrip(c, msg, l, headers, []);
    var sent := Published(c, msg, l).value;
    assert sent.data + [] == sent.data;
  }

  // A message without the id attribute is refused as that, whatever its content; one whose
  // content does not decode is refused as that.
  lemma DecodeRefuses<T>(c: Codec<T>, msg: PubsubMessage)
    ensures Decode(c, msg) == Err(MsgIdNotSet) <==> "Msg-Id" !in msg.attributes
    ensures Decode(c, msg) == Err(Deserialize) <==>
      "Msg-Id" in msg.attributes && PairOf(VecOf(PairOf(Str(), Str())), c).decode(msg.data).None?
    ensures Decode(c, msg).Ok? ==> Decode(c, msg).value.id == msg.attributes["Msg-Id"]
  {
  }

  lemma EventArrives(e: Event, l: Listing, headers: Headers)
    requires IsListing(l, headers) && Published(EventCodec(), FromEvent(e), l).Ok?
    ensures Decode(EventCodec(), Published(EventCodec(), FromEvent(e), l).value) ==
      Ok(GcpMessage(EventId(e), headers, e))
  {
    EventLawful();
    Arrives(EventCodec(), FromEvent(e), l, headers);
  }

  lemma TaskArrives(t: TaskItem, l: Listing, headers: Headers)
    requires IsListing(l, headers) && Published(TaskItemCodec(), FromTask(t), l).Ok?
    ensures Decode(TaskItemCodec(), Published(TaskItemCodec(), FromTask(t), l).value) ==
      Ok(GcpMessage(UuidText(t.id), headers, t))
  {
    TaskItemLawful();
    Arrives(TaskItemCodec(), FromTask(t), l, headers);
  }

  predicate ShortListing(l: Listing) {
    |l| <= U32_MAX && forall i :: 0 <= i < |l| ==> Short(l[i].0) && Short(l[i].1)
  }

  lemma ListingFits(l: Listing)
    ensures VecOf(PairOf(Str(), Str())).fits(l) <==> ShortListing(l)
  {
    var entry := PairOf(Str(), Str());
    assert forall i :: 0 <= i < |l| ==> (entry.fits(l[i]) <==> Short(l[i].0) && Short(l[i].1));
    assert VecOf(entry).fits(l) <==> |l| <= U32_MAX && AllFit(entry, l);
  }

  // The one attribute is the id, and the one error is the serialization's.
  lemma PublishedMeans<T>(c: Codec<T>, msg: PublishMessage<T>, l: Listing)
    ensures Published(c, msg, l).Ok? ==> Published(c, msg, l).value.attributes == map["Msg-Id" := msg.deduplicationId]
    ensures Published(c, msg, l).Err? ==> Published(c, msg, l).error == Serialize
  {
  }

  lemma PublishedIff<T(!new)>(c: Codec<T>, msg: PublishMessage<T>, l: Listing)
    requires Lawful(c)
    ensures Published(c, msg, l).Ok? <==> ShortListing(l) && c.fits(msg.data)
  {
    ContentLawful(c);
    EncodesIff(ContentCodec(c), (l, msg.data));
    ListingFits(l);
    PairFits(VecOf(PairOf(Str(), Str())), c, (l, msg.data));
  }

  // Nothing but an overlong string or list keeps an event or a task from being published.
  lemma EventPublishedIff(e: Event, l: Listing)
    ensures Published(EventCodec(), FromEvent(e), l).Ok? <==> ShortListing(l) && ShortEvent(e)
  {
    EventLawful();
    EventFitsIff(e);
    PublishedIff(EventCodec(), FromEvent(e), l);
  }

  lemma TaskPublishedIff(t: TaskItem, l: Listing)
    ensures Published(TaskItemCodec(), FromTask(t), l).Ok? <==> ShortListing(l) && ShortTask(t.task)
  {
    TaskItemLawful();
    PublishedIff(TaskItemCodec(), FromTask(t), l);
    TaskItemFits(t);
  }

  class MessageContent<T> {
    var headers: Headers
    const data: T

    constructor (data: T)
      ensures headers == map[] && this.data == data
    {
      headers := map[];
      this.data := data;
    }

    method Set(key: Text, value: Text)
      modifies this
      ensures headers == old(headers)[key := value]
    {
      headers := headers[key := value];
    }

    // The tracing context sets headers of its own.
    method InjectContext(context: Listing)
      modifies this
      ensures headers == Collected(old(headers), context)
    {
      for i := 0 to |context|
        invariant Collected(headers, context[i..]) == Collected(old(headers), context)
      {
        assert context[i..][0] == context[i] && context[i..][1..] == context[i + 1..];
        Set(context[i].0, context[i].1);
      }
    }
  }

  // The message's headers: the context's, but for the correlation id.
  function HeadersOf(context: Listing, id: Text): Headers {
    Collected(map[], context)[CorrelationId() := id]
  }

  lemma LastSet(context: Listing, k: Text) returns (i: nat)
    requires exists j :: 0 <= j < |context| && context[j].0 == k
    ensures i < |context| && context[i].0 == k && forall j :: i < j < |context| ==> context[j].0 != k
  {
    i := |context| - 1;
    while context[i].0 != k
      invariant i < |context| && forall j :: i < j < |context| ==> context[j].0 != k
      decreases i
    {
      i := i - 1;
    }
  }

  ghost predicate IsSet(context: Listing, k: Text) {
    exists i :: 0 <= i < |context| && context[i].0 == k
  }

  ghost predicate IsSetLast(context: Listing, k: Text, value: Text) {
    exists i :: 0 <= i < |context| && context[i] == (k, value) && forall j :: i < j < |context| ==> context[j].0 != k
  }

  lemma CollectedIs(context: Listing, k: Text)
    ensures var h := Collected(map[], context);
            (k in h <==> IsSet(context, k)) && (k in h ==> IsSetLast(context, k, h[k]))
  {
    if IsSet(context, k) {
      var i := LastSet(context, k);
      CollectedLast(map[], context, i);
      assert context[i] == (k, Collected(map[], context)[k]);
    } else {
      CollectedUnset(map[], context, k);
    }
  }

  lemma HeadersAre(context: Listing, id: Text, k: Text)
    ensures var h := HeadersOf(context, id);
            if k == CorrelationId() then k in h && h[k] == id
            else (k in h <==> IsSet(context, k)) && (k in h ==> IsSetLast(context, k, h[k]))
  {
    CollectedIs(context, k);
  }

  // What the consumer reads from such a message: its id, its data, the id again under
  // "correlation-id", whatever the context says of that, and else exactly the context's
  // headers, each with the value that was set last.
  lemma HeadersArrive<T(!new)>(c: Codec<T>, msg: PublishMessage<T>, context: Listing, order: Headers -> Listing,
                               k: Text)
    requires Lawful(c) && forall m :: IsListing(order(m), m)
    requires Published(c, msg, order(HeadersOf(context, msg.deduplicationId))).Ok?
    ensures var r := Decode(c, Published(c, msg, order(HeadersOf(context, msg.deduplicationId))).value);
            var key := [99, 111, 114, 114, 101, 108, 97, 116, 105, 111, 110, 45, 105, 100];
            && r.Ok? && r.value.id == msg.deduplicationId && r.value.decoded == msg.data
            && (k == key ==> k in r.value.headers && r.value.headers[k] == msg.deduplicationId)
            && (k in r.value.headers <==> k == key || exists i :: 0 <= i < |context| && context[i].0 == k)
            && (k != key && k in r.value.headers ==>
                exists i :: 0 <= i < |context| && context[i] == (k, r.value.headers[k])
                            && forall j :: i < j < |context| ==> context[j].0 != k)
  {
    var h := HeadersOf(context, msg.deduplicationId);
    Arrives(c, msg, order(h), h);
    HeadersAre(context, msg.deduplicationId, k);
  }

  method ToPubsubMessage<T>(c: Codec<T>, msg: PublishMessage<T>, context: Listing, order: Headers -> Listing)
    returns (r: Result<PubsubMessage, GcpError>)
    ensures r == Published(c, msg, order(HeadersOf(context, msg.deduplicationId)))
  {
    var message := new MessageContent(msg.data);
    message.InjectContext(context);
    message.Set(CorrelationId(), msg.deduplicationId);
    var content := (order(message.headers), message.data);
    assert content == (order(HeadersOf(context, msg.deduplicationId)), msg.data);
    r := Serialized(ContentCodec(c).encode(content), msg.deduplicationId);
  }
}

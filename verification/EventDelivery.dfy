// Events from the queue to the Amplifier API: Pub/Sub leases and redelivers, a Redis
// key per event id marks what was handled for the next ten minutes, the ingester
// posts the event, acknowledges the message and then sets the key. Deliveries run
// concurrently, and every call to a service may fail with or without its effect.
module EventDelivery {
  import opened Options
  import opened Runs

  const TEN_MINUTES_IN_SECS := 600

  type EventId = string

  datatype Lease = Queued | Leased(delivery: nat, until: nat) | Acked

  // The progress of one delivery: received, past the duplicate check, posted to the
  // API, refused by it, acknowledged but not yet marked, found to be a duplicate.
  datatype Phase = Received | Forwarded | Posted | Refused | Marking | Duplicate | Gone

  datatype Delivery = Delivery(msg: nat, phase: Phase)

  datatype Event =
    | CheckedAt(delivery: nat, id: EventId, at: nat, seen: bool)
    | PostedAt(delivery: nat, id: EventId, at: nat)
    | MarkedAt(delivery: nat, id: EventId, at: nat)

  // Message m carries the event id msgs[m]; history lists the checks, the successful
  // exchanges with the API and the key writes.
  datatype State = State(
    now: nat, msgs: seq<EventId>, broker: seq<Lease>, deliveries: seq<Delivery>,
    keys: map<EventId, nat>, history: seq<Event>)

  datatype Action =
    | Publish(id: EventId)
    | Pass(secs: nat)
    | Receive(m: nat, until: nat)
    | Extend(d: nat, until: nat)
    | Expire(m: nat)
    | Check(d: nat)
    | PostOk(d: nat)
    | PostFail(d: nat)
    | Nak(d: nat)
    | Ack(d: nat, effective: bool)
    | AckUnreported(d: nat)
    | Mark(d: nat)
    | AckDuplicate(d: nat)
    | Drop(d: nat)

  predicate IsAt(s: State, d: nat, phase: Phase) {
    d < |s.deliveries| && s.deliveries[d].phase == phase && s.deliveries[d].msg < |s.msgs| == |s.broker|
  }

  function IdOf(s: State, d: nat): EventId
    requires d < |s.deliveries| && s.deliveries[d].msg < |s.msgs|
  {
    s.msgs[s.deliveries[d].msg]
  }

  function To(s: State, d: nat, phase: Phase): State
    requires d < |s.deliveries|
  {
    s.(deliveries := s.deliveries[d := s.deliveries[d].(phase := phase)])
  }

  function WithLease(s: State, m: nat, lease: Lease): State
    requires m < |s.broker|
  {
    s.(broker := s.broker[m := lease])
  }

  function Log(s: State, e: Event): State {
    s.(history := s.history + [e])
  }

  predicate HoldsLease(s: State, d: nat)
    requires d < |s.deliveries| && s.deliveries[d].msg < |s.broker|
  {
    var lease := s.broker[s.deliveries[d].msg];
    lease.Leased? && lease.delivery == d
  }

  // Redis drops a key written with a life of 600 seconds once they have passed.
  predicate HasKey(s: State, id: EventId) {
    id in s.keys && s.now < s.keys[id]
  }

  ghost predicate Next(s: State, a: Action, s': State) {
    match a
    case Publish(id) => s' == s.(msgs := s.msgs + [id], broker := s.broker + [Queued])
    case Pass(secs) => s' == s.(now := s.now + secs)
    case Receive(m, until) =>
      && m < |s.broker| && s.broker[m].Queued?
      && s' == WithLease(s, m, Leased(|s.deliveries|, until)).(deliveries := s.deliveries + [Delivery(m, Received)])
    case Extend(d, until) =>
      && d < |s.deliveries| && s.deliveries[d].msg < |s.broker| && HoldsLease(s, d)
      && s' == WithLease(s, s.deliveries[d].msg, Leased(d, until))
    case Expire(m) =>
      m < |s.broker| && s.broker[m].Leased? && s.broker[m].until <= s.now && s' == WithLease(s, m, Queued)
    case Check(d) =>
      && IsAt(s, d, Received)
      && s' == Log(To(s, d, if HasKey(s, IdOf(s, d)) then Duplicate else Forwarded),
                   CheckedAt(d, IdOf(s, d), s.now, HasKey(s, IdOf(s, d))))
    case PostOk(d) =>
      IsAt(s, d, Forwarded) && s' == Log(To(s, d, Posted), PostedAt(d, IdOf(s, d), s.now))
    case PostFail(d) => IsAt(s, d, Forwarded) && s' == To(s, d, Refused)
    // a negative acknowledgement ends the delivery's own lease, if it still has one
    case Nak(d) =>
      && IsAt(s, d, Refused)
      && s' == var m := s.deliveries[d].msg;
               if HoldsLease(s, d) then WithLease(To(s, d, Gone), m, Queued)
               else To(s, d, Gone)
    // an acknowledgement may come too late to have an effect
    case Ack(d, effective) =>
      && IsAt(s, d, Posted)
      && (effective || !HoldsLease(s, d))
      && s' == if effective then WithLease(To(s, d, Marking), s.deliveries[d].msg, Acked) else To(s, d, Marking)
    case AckUnreported(d) =>
      IsAt(s, d, Posted) && s' == WithLease(To(s, d, Gone), s.deliveries[d].msg, Acked)
    // the key write takes effect, whether or not it is reported as an error
    case Mark(d) =>
      && IsAt(s, d, Marking)
      && s' == Log(To(s, d, Gone).(keys := s.keys[IdOf(s, d) := s.now + TEN_MINUTES_IN_SECS]),
                   MarkedAt(d, IdOf(s, d), s.now))
    case AckDuplicate(d) =>
      IsAt(s, d, Duplicate) && s' == WithLease(To(s, d, Gone), s.deliveries[d].msg, Acked)
    // an error without effect, or a crash
    case Drop(d) => d < |s.deliveries| && s' == To(s, d, Gone)
  }

  ghost predicate Init(s: State) {
    s.msgs == [] && s.broker == [] && s.deliveries == [] && s.keys == map[] && s.history == []
  }

  // The API has answered a post of the event with success.
  ghost predicate Exchanged(history: seq<Event>, id: EventId) {
    exists e :: e in history && e.PostedAt? && e.id == id
  }

  // The time of the last key write for the id.
  function LastMark(history: seq<Event>, id: EventId): Option<nat> {
    if history == [] then None
    else
      var e := history[|history| - 1];
      if e.MarkedAt? && e.id == id then Some(e.at) else LastMark(Before(history), id)
  }

  ghost predicate Recent(mark: Option<nat>, at: nat) {
    mark.Some? && at < mark.value + TEN_MINUTES_IN_SECS
  }

  // Delivery d of the event passed the duplicate check.
  ghost predicate Cleared(history: seq<Event>, d: nat, id: EventId) {
    exists k :: 0 <= k < |history| && IsClearance(history[k], d, id)
  }

  predicate IsClearance(e: Event, d: nat, id: EventId) {
    e.CheckedAt? && e.delivery == d && e.id == id && !e.seen
  }

  // Delivery d of the event was posted with success.
  ghost predicate HasPosted(history: seq<Event>, d: nat, id: EventId) {
    exists e :: e in history && e.PostedAt? && e.delivery == d && e.id == id
  }

  // What an event of the history owes to the ones before it.
  ghost predicate EventOk(before: seq<Event>, e: Event) {
    && (forall b :: b in before ==> b.at <= e.at)
    && match e
       case CheckedAt(d, id, at, seen) => seen <==> Recent(LastMark(before, id), at)
       case PostedAt(d, id, at) => Cleared(before, d, id)
       case MarkedAt(d, id, at) => HasPosted(before, d, id)
  }

  function Before(history: seq<Event>): seq<Event>
    requires history != []
  {
    history[..|history| - 1]
  }

  ghost predicate HistoryOk(history: seq<Event>) {
    history == [] || (HistoryOk(Before(history)) && EventOk(Before(history), history[|history| - 1]))
  }

  // A key exists for the ids that were marked, and lasts from the last mark.
  ghost predicate KeysOk(keys: map<EventId, nat>, history: seq<Event>) {
    forall id :: match LastMark(history, id)
                 case None => id !in keys
                 case Some(at) => id in keys && keys[id] == at + TEN_MINUTES_IN_SECS
  }

  ghost predicate DeliveryOk(msgs: seq<EventId>, history: seq<Event>, d: nat, delivery: Delivery) {
    && delivery.msg < |msgs|
    && var id := msgs[delivery.msg];
       match delivery.phase
       case Forwarded => Cleared(history, d, id)
       case Posted => HasPosted(history, d, id)
       case Marking => HasPosted(history, d, id)
       case Duplicate => Exchanged(history, id)
       case _ => true
  }

  ghost predicate LeaseOk(deliveries: seq<Delivery>, history: seq<Event>, m: nat, id: EventId, lease: Lease) {
    match lease
    case Queued => true
    case Leased(d, until) => d < |deliveries| && deliveries[d].msg == m
    case Acked => Exchanged(history, id)
  }

  ghost predicate Inv(s: State) {
    && |s.broker| == |s.msgs|
    && HistoryOk(s.history) && (forall e :: e in s.history ==> e.at <= s.now)
    && KeysOk(s.keys, s.history)
    && (forall d :: 0 <= d < |s.deliveries| ==> DeliveryOk(s.msgs, s.history, d, s.deliveries[d]))
    && (forall m :: 0 <= m < |s.broker| ==> LeaseOk(s.deliveries, s.history, m, s.msgs[m], s.broker[m]))
  }

  lemma PostedIsExchanged(history: seq<Event>, d: nat, id: EventId)
    requires HasPosted(history, d, id)
    ensures Exchanged(history, id)
  {
    var e :| e in history && e.PostedAt? && e.delivery == d && e.id == id;
  }

  lemma ClearedGrows(history: seq<Event>, more: seq<Event>, d: nat, id: EventId)
    requires Cleared(history, d, id)
    ensures Cleared(history + more, d, id)
  {
    var k :| 0 <= k < |history| && IsClearance(history[k], d, id);
    assert (history + more)[k] == history[k];
  }

  lemma PostedGrows(history: seq<Event>, more: seq<Event>, d: nat, id: EventId)
    requires HasPosted(history, d, id)
    ensures HasPosted(history + more, d, id)
  {
    var e :| e in history && e.PostedAt? && e.delivery == d && e.id == id;
    assert e in history + more;
  }

  lemma ExchangedGrows(history: seq<Event>, more: seq<Event>, id: EventId)
    requires Exchanged(history, id)
    ensures Exchanged(history + more, id)
  {
    var e :| e in history && e.PostedAt? && e.id == id;
    assert e in history + more;
  }

  lemma DeliveryGrows(msgs: seq<EventId>, history: seq<Event>, d: nat, delivery: Delivery, ids: seq<EventId>,
                      more: seq<Event>)
    requires DeliveryOk(msgs, history, d, delivery)
    ensures DeliveryOk(msgs + ids, history + more, d, delivery)
  {
    var id := msgs[delivery.msg];
    match delivery.phase
    case Forwarded => ClearedGrows(history, more, d, id);
    case Posted => PostedGrows(history, more, d, id);
    case Marking => PostedGrows(history, more, d, id);
    case Duplicate => ExchangedGrows(history, more, id);
    case _ =>
  }

  lemma HistoryGrows(history: seq<Event>, e: Event)
    requires HistoryOk(history) && EventOk(history, e)
    ensures HistoryOk(history + [e])
  {
    assert Before(history + [e]) == history;
  }

  lemma LastMarkSnoc(history: seq<Event>, e: Event, id: EventId)
    ensures LastMark(history + [e], id) == if e.MarkedAt? && e.id == id then Some(e.at) else LastMark(history, id)
  {
    assert Before(history + [e]) == history;
  }

  lemma KeysGrow(keys: map<EventId, nat>, history: seq<Event>, e: Event)
    requires KeysOk(keys, history)
    ensures KeysOk(if e.MarkedAt? then keys[e.id := e.at + TEN_MINUTES_IN_SECS] else keys, history + [e])
  {
    forall id
      ensures LastMark(history + [e], id) == if e.MarkedAt? && e.id == id then Some(e.at) else LastMark(history, id)
    {
      LastMarkSnoc(history, e, id);
    }
  }

  lemma {:induction false} HistoryPrefix(history: seq<Event>, n: nat)
    requires HistoryOk(history) && n <= |history|
    ensures HistoryOk(history[..n])
    ensures n < |history| ==> EventOk(history[..n], history[n])
    decreases |history|
  {
    if n == |history| {
      assert history[..n] == history;
    } else if n < |history| - 1 {
      HistoryPrefix(Before(history), n);
      assert Before(history)[..n] == history[..n] && Before(history)[n] == history[n];
    }
  }

  lemma EarlierIsOlder(before: seq<Event>, e: Event, j: nat)
    requires EventOk(before, e) && j < |before|
    ensures before[j].at <= e.at
  {
    assert before[j] in before;
  }

  lemma {:induction false} MarkNeedsPost(history: seq<Event>, id: EventId)
    requires HistoryOk(history) && LastMark(history, id).Some?
    ensures Exchanged(history, id)
  {
    var before, e := Before(history), history[|history| - 1];
    if e.MarkedAt? && e.id == id {
      PostedIsExchanged(before, e.delivery, id);
    } else {
      MarkNeedsPost(before, id);
    }
    ExchangedGrows(before, [e], id);
    assert history == before + [e];
  }

  lemma {:induction false} MarksAreOlder(history: seq<Event>, id: EventId, j: nat)
    requires HistoryOk(history) && j < |history| && history[j].MarkedAt? && history[j].id == id
    ensures LastMark(history, id).Some? && history[j].at <= LastMark(history, id).value
    decreases |history|
  {
    var before, e := Before(history), history[|history| - 1];
    if e.MarkedAt? && e.id == id {
      if j < |before| { EarlierIsOlder(before, e, j); }
    } else {
      MarksAreOlder(before, id, j);
    }
  }

  // A step that appends to the history and changes at most delivery d and the lease
  // of message m.
  lemma InvStep(s: State, s': State, d: nat, m: nat, more: seq<Event>)
    requires Inv(s) && s'.msgs == s.msgs && s'.now >= s.now
    requires s'.history == s.history + more && |more| <= 1
    requires more == [] ==> s'.keys == s.keys
    requires more != [] ==> EventOk(s.history, more[0]) && more[0].at <= s'.now
    requires more != [] ==>
      s'.keys == if more[0].MarkedAt? then s.keys[more[0].id := more[0].at + TEN_MINUTES_IN_SECS] else s.keys
    requires |s'.deliveries| == |s.deliveries| && |s'.broker| == |s.broker|
    requires forall q :: 0 <= q < |s.deliveries| && q != d ==> s'.deliveries[q] == s.deliveries[q]
    requires forall q :: 0 <= q < |s.broker| && q != m ==> s'.broker[q] == s.broker[q]
    requires d < |s.deliveries| ==> s'.deliveries[d].msg == s.deliveries[d].msg
    requires d < |s.deliveries| ==> DeliveryOk(s'.msgs, s'.history, d, s'.deliveries[d])
    requires m < |s.broker| ==> LeaseOk(s'.deliveries, s'.history, m, s'.msgs[m], s'.broker[m])
    ensures Inv(s')
  {
    if more != [] {
      assert more == [more[0]];
      HistoryGrows(s.history, more[0]);
      KeysGrow(s.keys, s.history, more[0]);
    } else {
      assert s'.history == s.history;
    }
    forall q | 0 <= q < |s'.deliveries| ensures DeliveryOk(s'.msgs, s'.history, q, s'.deliveries[q]) {
      assert s.msgs + [] == s.msgs;
      if q != d { DeliveryGrows(s.msgs, s.history, q, s.deliveries[q], [], more); }
    }
    forall q | 0 <= q < |s'.broker| ensures LeaseOk(s'.deliveries, s'.history, q, s'.msgs[q], s'.broker[q]) {
      if q != m && s.broker[q].Acked? { ExchangedGrows(s.history, more, s.msgs[q]); }
    }
  }

  lemma InvSimple(s: State, a: Action, s': State)
    requires Inv(s) && (a.Publish? || a.Pass? || a.Receive?) && Next(s, a, s')
    ensures Inv(s')
  {
    assert s.history + [] == s.history && s'.history == s.history;
    var ids := if a.Publish? then [a.id] else [];
    forall q | 0 <= q < |s'.deliveries| ensures DeliveryOk(s'.msgs, s'.history, q, s'.deliveries[q]) {
      if q < |s.deliveries| { DeliveryGrows(s.msgs, s.history, q, s.deliveries[q], ids, []); }
    }
  }

  lemma InvCheck(s: State, d: nat, s': State)
    requires Inv(s) && Next(s, Check(d), s')
    ensures Inv(s')
  {
    var id, seen := IdOf(s, d), HasKey(s, IdOf(s, d));
    var e := CheckedAt(d, id, s.now, seen);
    if seen {
      MarkNeedsPost(s.history, id);
      ExchangedGrows(s.history, [e], id);
    } else {
      assert IsClearance(s'.history[|s.history|], d, id);
    }
    InvStep(s, s', d, |s.broker|, [e]);
  }

  lemma InvPost(s: State, d: nat, s': State)
    requires Inv(s) && Next(s, PostOk(d), s')
    ensures Inv(s')
  {
    var e := PostedAt(d, IdOf(s, d), s.now);
    assert e in s'.history;
    InvStep(s, s', d, |s.broker|, [e]);
  }

  lemma InvAck(s: State, d: nat, a: Action, s': State)
    requires Inv(s) && Next(s, a, s') && (a == Ack(d, true) || a == AckUnreported(d) || a == AckDuplicate(d))
    ensures Inv(s')
  {
    if !a.AckDuplicate? { PostedIsExchanged(s.history, d, IdOf(s, d)); }
    assert s.history + [] == s.history;
    InvStep(s, s', d, s.deliveries[d].msg, []);
  }

  lemma MarkIsOk(s: State, d: nat) returns (e: Event)
    requires Inv(s) && IsAt(s, d, Marking)
    ensures e == MarkedAt(d, IdOf(s, d), s.now) && EventOk(s.history, e)
  {
    e := MarkedAt(d, IdOf(s, d), s.now);
    assert DeliveryOk(s.msgs, s.history, d, s.deliveries[d]);
  }

  lemma InvMark(s: State, d: nat, s': State)
    requires Inv(s) && Next(s, Mark(d), s')
    ensures Inv(s')
  {
    var e := MarkIsOk(s, d);
    InvStep(s, s', d, |s.broker|, [e]);
  }

  // Steps that only change delivery d's phase or message m's lease.
  lemma InvQuiet(s: State, d: nat, m: nat, a: Action, s': State)
    requires Inv(s) && Next(s, a, s')
    requires a.Extend? || a.Expire? || a.PostFail? || a.Nak? || a.Drop? || (a.Ack? && !a.effective)
    requires
      if a.Expire? then d == |s.deliveries| && m == a.m
      else d == a.d && d < |s.deliveries| && m == s.deliveries[d].msg
    ensures Inv(s')
  {
    assert s.history + [] == s.history;
    InvStep(s, s', d, m, []);
  }

  lemma InvNext(s: State, a: Action, s': State)
    requires Inv(s) && Next(s, a, s')
    ensures Inv(s')
  {
    match a
    case Publish(id) => InvSimple(s, a, s');
    case Pass(secs) => InvSimple(s, a, s');
    case Receive(m, until) => InvSimple(s, a, s');
    case Check(d) => InvCheck(s, d, s');
    case PostOk(d) => InvPost(s, d, s');
    case Ack(d, effective) =>
      if effective { InvAck(s, d, a, s'); } else { InvQuiet(s, d, s.deliveries[d].msg, a, s'); }
    case AckUnreported(d) => InvAck(s, d, a, s');
    case AckDuplicate(d) => InvAck(s, d, a, s');
    case Mark(d) => InvMark(s, d, s');
    case Expire(m) => InvQuiet(s, |s.deliveries|, m, a, s');
    case Extend(d, until) => InvQuiet(s, d, s.deliveries[d].msg, a, s');
    case PostFail(d) => InvQuiet(s, d, s.deliveries[d].msg, a, s');
    case Nak(d) => InvQuiet(s, d, s.deliveries[d].msg, a, s');
    case Drop(d) => InvQuiet(s, d, s.deliveries[d].msg, a, s');
  }

  lemma EveryStepKeepsInv()
    ensures forall s, a, s' :: Inv(s) && Next(s, a, s') ==> Inv(s')
  {
    forall s, a, s' | Inv(s) && Next(s, a, s') ensures Inv(s') { InvNext(s, a, s'); }
  }

  // No event is lost: in every state of every run, a message that the broker regards
  // as acknowledged, on the duplicate path too, carries an event that the API took,
  // and so does every id that Redis knows.
  lemma AckSoundness(run: seq<State>, acts: seq<Action>, i: nat)
    requires IsRun(Next, run, acts) && Init(run[0]) && i < |run|
    ensures Inv(run[i])
    ensures forall m :: 0 <= m < |run[i].broker| && run[i].broker[m].Acked? ==>
      m < |run[i].msgs| && exists e :: e in run[i].history && e.PostedAt? && e.id == run[i].msgs[m]
    ensures forall id :: id in run[i].keys ==> exists e :: e in run[i].history && e.PostedAt? && e.id == id
  {
    EveryStepKeepsInv();
    Invariant(Next, Inv, run, acts, i);
    var s := run[i];
    forall m | 0 <= m < |s.broker| && s.broker[m].Acked?
      ensures exists e :: e in s.history && e.PostedAt? && e.id == s.msgs[m]
    {
      assert LeaseOk(s.deliveries, s.history, m, s.msgs[m], s.broker[m]);
    }
    forall id | id in s.keys ensures exists e :: e in s.history && e.PostedAt? && e.id == id {
      MarkNeedsPost(s.history, id);
    }
  }

  lemma ReachedInv(s0: State, s: State)
    requires Init(s0) && Reaches(Next, s0, s)
    ensures Inv(s)
  {
    EveryStepKeepsInv();
    InvariantReached(Next, Inv, s0, s);
  }

  // In every state that can be reached, a message that is not acknowledged can be
  // delivered once more, and that without any further event.
  lemma UnackedIsRedeliverable(s0: State, s: State, m: nat, until: nat) returns (t: State)
    requires Init(s0) && Reaches(Next, s0, s) && m < |s.broker| && !s.broker[m].Acked?
    ensures Reaches(Next, s, t) && t.history == s.history
    ensures |t.deliveries| == |s.deliveries| + 1 && t.deliveries[|s.deliveries|] == Delivery(m, Received)
    ensures m < |s.msgs| && t.msgs == s.msgs
    ensures IsAt(t, |s.deliveries|, Received) && IdOf(t, |s.deliveries|) == s.msgs[m]
  {
    ReachedInv(s0, s);
    ReachesSelf<State, Action>(Next, s);
    var queued := s;
    if s.broker[m].Leased? {
      var later := s.(now := s.now + s.broker[m].until);
      ReachesNext(Next, s, s, Pass(s.broker[m].until), later);
      queued := WithLease(later, m, Queued);
      ReachesNext(Next, s, later, Expire(m), queued);
    }
    t := WithLease(queued, m, Leased(|s.deliveries|, until)).(deliveries := s.deliveries + [Delivery(m, Received)]);
    ReachesNext(Next, s, queued, Receive(m, until), t);
  }

  // And so it can still be completed: nothing that has failed so far keeps it from being
  // acknowledged, be it as handled or as a duplicate.
  lemma UnackedCanComplete(s0: State, s: State, m: nat) returns (t: State)
    requires Init(s0) && Reaches(Next, s0, s) && m < |s.broker| && !s.broker[m].Acked?
    ensures Reaches(Next, s, t) && m < |t.broker| && t.broker[m].Acked?
    ensures m < |s.msgs| && exists e :: e in t.history && e.PostedAt? && e.id == s.msgs[m]
  {
    var u := UnackedIsRedeliverable(s0, s, m, 0);
    var d := |s.deliveries|;
    var checked := Log(To(u, d, if HasKey(u, IdOf(u, d)) then Duplicate else Forwarded),
                       CheckedAt(d, IdOf(u, d), u.now, HasKey(u, IdOf(u, d))));
    ReachesNext(Next, s, u, Check(d), checked);
    if HasKey(u, IdOf(u, d)) {
      t := WithLease(To(checked, d, Gone), m, Acked);
      ReachesNext(Next, s, checked, AckDuplicate(d), t);
    } else {
      var posted := Log(To(checked, d, Posted), PostedAt(d, IdOf(checked, d), checked.now));
      ReachesNext(Next, s, checked, PostOk(d), posted);
      t := WithLease(To(posted, d, Marking), m, Acked);
      ReachesNext(Next, s, posted, Ack(d, true), t);
    }
    AckedIsExchanged(s0, s, t, m);
  }

  lemma AckedIsExchanged(s0: State, s: State, t: State, m: nat)
    requires Init(s0) && Reaches(Next, s0, s) && Reaches(Next, s, t) && m < |t.broker| && t.broker[m].Acked?
    ensures m < |t.msgs| && Exchanged(t.history, t.msgs[m])
  {
    ReachesTrans<State, Action>(Next, s0, s, t);
    ReachedInv(s0, t);
    assert LeaseOk(t.deliveries, t.history, m, t.msgs[m], t.broker[m]);
  }

  // The window over timed runs: a delivery posts an event only after a check of its
  // own that no key write of the last ten minutes precedes. So if two deliveries of
  // one event are both posted, the second's check came before the first's key write,
  // or ten minutes after it, or that write never happened.
  lemma DedupWindow(run: seq<State>, acts: seq<Action>, i: nat, p: nat) returns (k: nat)
    requires IsRun(Next, run, acts) && Init(run[0]) && i < |run|
    requires p < |run[i].history| && run[i].history[p].PostedAt?
    ensures k < p && run[i].history[k] ==
      CheckedAt(run[i].history[p].delivery, run[i].history[p].id, run[i].history[k].at, false)
    ensures forall j :: 0 <= j < k && run[i].history[j].MarkedAt? && run[i].history[j].id == run[i].history[p].id
              ==> run[i].history[j].at + 600 <= run[i].history[k].at
  {
    EveryStepKeepsInv();
    Invariant(Next, Inv, run, acts, i);
    k := CheckBeforePost(run[i].history, p);
  }

  lemma CheckBeforePost(history: seq<Event>, p: nat) returns (k: nat)
    requires HistoryOk(history) && p < |history| && history[p].PostedAt?
    ensures k < p && IsClearance(history[k], history[p].delivery, history[p].id)
    ensures forall j :: 0 <= j < k && history[j].MarkedAt? && history[j].id == history[p].id
              ==> history[j].at + TEN_MINUTES_IN_SECS <= history[k].at
  {
    var e := history[p];
    HistoryPrefix(history, p);
    k :| 0 <= k < |history[..p]| && IsClearance(history[..p][k], e.delivery, e.id);
    HistoryPrefix(history, k);
    forall j | 0 <= j < k && history[j].MarkedAt? && history[j].id == e.id
      ensures history[j].at + TEN_MINUTES_IN_SECS <= history[k].at
    {
      MarksAreOlder(history[..k], e.id, j);
    }
  }

  lemma {:induction false} LastMarkIn(history: seq<Event>, id: EventId) returns (j: nat)
    requires LastMark(history, id).Some?
    ensures j < |history| && history[j] == MarkedAt(history[j].delivery, id, LastMark(history, id).value)
  {
    var e := history[|history| - 1];
    if e.MarkedAt? && e.id == id { j := |history| - 1; } else { j := LastMarkIn(Before(history), id); }
  }

  // The duplicate check is exact: it finds a key if and only if some write of that key is
  // less than ten minutes old.
  lemma CheckIsExact(run: seq<State>, acts: seq<Action>, i: nat, id: EventId)
    requires IsRun(Next, run, acts) && Init(run[0]) && i < |run|
    ensures HasKey(run[i], id) <==> exists j :: 0 <= j < |run[i].history| && run[i].history[j].MarkedAt?
                                             && run[i].history[j].id == id && run[i].now < run[i].history[j].at + 600
  {
    EveryStepKeepsInv();
    Invariant(Next, Inv, run, acts, i);
    var s := run[i];
    assert KeysOk(s.keys, s.history);
    if HasKey(s, id) { var j := LastMarkIn(s.history, id); }
    forall j | 0 <= j < |s.history| && s.history[j].MarkedAt? && s.history[j].id == id && s.now < s.history[j].at + 600
      ensures HasKey(s, id)
    {
      MarksAreOlder(s.history, id, j);
    }
  }
}

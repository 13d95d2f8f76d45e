// A received message, the receive callback and the ingester, in the shape of the
// source. The queue, Redis and the API sit behind one object whose state is the
// delivery protocol's; what they do with a call comes in as a parameter.
module GcpConsumer {
  import opened Options
  import opened Runs
  import opened EventDelivery

  const I32_MAX := 0x7FFF_FFFF

  type I32 = x: int | -I32_MAX - 1 <= x <= I32_MAX

  datatype GcpError = MsgIdNotSet | Deserialize | Redis | AckFailed | NakFailed | ModifyAckDeadline

  // How the broker takes an acknowledgement, and Redis a key write.
  datatype AckFate = Effective | TooLate | Unreported | NotSent
  datatype WriteFate = Written | WrittenUnreported | Lost

  datatype Forward = ForwardMessage | ForwardError(error: GcpError) | Acknowledged

  class Services {
    var world: State

    constructor ()
      ensures Init(world) && world.now == 0
    {
      world := State(0, [], [], [], map[], []);
    }
  }

  // The deadline doubles unless the product leaves the range of i32.
  function Extended(deadline: I32): I32 {
    if -I32_MAX - 1 <= deadline * 2 <= I32_MAX then deadline * 2 else deadline
  }

  function ExtendedBy(deadline: I32, times: nat): I32 {
    if times == 0 then deadline else Extended(ExtendedBy(deadline, times - 1))
  }

  function Doubled(x: int, times: nat): int {
    if times == 0 then x else 2 * Doubled(x, times - 1)
  }

  // However often progress is reported, the deadline is the original one doubled as
  // often as that, or as often as the range of i32 allows.
  lemma {:induction false} ExtensionsSaturate(deadline: I32, times: nat) returns (doublings: nat)
    ensures doublings <= times && ExtendedBy(deadline, times) == Doubled(deadline, doublings)
    ensures doublings < times ==> !(-I32_MAX - 1 <= Doubled(deadline, doublings + 1) <= I32_MAX)
  {
    if times == 0 {
      doublings := 0;
    } else {
      doublings := ExtensionsSaturate(deadline, times - 1);
      if -I32_MAX - 1 <= Doubled(deadline, doublings + 1) <= I32_MAX {
        doublings := doublings + 1;
      }
    }
  }

  class GcpMessage {
    const services: Services
    const delivery: nat
    const id: EventId
    var ackDeadlineSecs: I32

    constructor (services: Services, delivery: nat, id: EventId, ackDeadlineSecs: I32)
      ensures this.services == services && this.delivery == delivery && this.id == id
      ensures this.ackDeadlineSecs == ackDeadlineSecs
    {
      this.services, this.delivery, this.id := services, delivery, id;
      this.ackDeadlineSecs := ackDeadlineSecs;
    }

    ghost predicate Is(phase: Phase)
      reads services
    {
      IsAt(services.world, delivery, phase) && IdOf(services.world, delivery) == id
    }

    method IsProcessed(fails: bool) returns (r: Result<bool, GcpError>)
      ensures r == if fails then Err(Redis) else Ok(HasKey(services.world, id))
    {
      r := if fails then Err(Redis) else Ok(HasKey(services.world, id));
    }

    // Acknowledge first, then set the key; the key is set only if the acknowledgement
    // was reported as sent.
    method AckPositive(ack: AckFate, write: WriteFate) returns (r: Result<(), GcpError>)
      requires Is(Posted) && (ack.TooLate? ==> !HoldsLease(services.world, delivery))
      modifies services
      ensures Reaches(Next, old(services.world), services.world)
      ensures r.Ok? <==> ((ack.Effective? || ack.TooLate?) && write.Written?)
      ensures var m := old(services.world).deliveries[delivery].msg;
        services.world.broker ==
          if ack.Effective? || ack.Unreported? then old(services.world).broker[m := Acked]
          else old(services.world).broker
      ensures services.world.keys ==
        if (ack.Effective? || ack.TooLate?) && !write.Lost?
        then old(services.world).keys[id := old(services.world).now + 600]
        else old(services.world).keys
    {
      ghost var s := services.world;
      ReachesSelf<State, Action>(Next, s);
      var m := services.world.deliveries[delivery].msg;
      if ack.NotSent? || ack.Unreported? {
        services.world := To(services.world, delivery, Gone);
        if ack.Unreported? { services.world := WithLease(services.world, m, Acked); }
        ReachesNext(Next, s, s, if ack.NotSent? then Drop(delivery) else AckUnreported(delivery), services.world);
        return Err(AckFailed);
      }
      services.world := To(services.world, delivery, Marking);
      if ack.Effective? { services.world := WithLease(services.world, m, Acked); }
      ReachesNext(Next, s, s, EventDelivery.Action.Ack(delivery, ack.Effective?), services.world);
      r := MarkProcessed(s, write);
    }

    method MarkProcessed(ghost s: State, write: WriteFate) returns (r: Result<(), GcpError>)
      requires Is(Marking) && Reaches(Next, s, services.world)
      modifies services
      ensures Reaches(Next, s, services.world)
      ensures r == if write.Written? then Ok(()) else Err(Redis)
      ensures services.world.broker == old(services.world).broker
      ensures services.world.keys == if write.Lost? then old(services.world).keys
        else old(services.world).keys[id := old(services.world).now + 600]
    {
      ghost var t := services.world;
      services.world := To(services.world, delivery, Gone);
      if write.Lost? {
        ReachesNext(Next, s, t, Drop(delivery), services.world);
        return Err(Redis);
      }
      services.world := services.world.(keys := services.world.keys[id := services.world.now + TEN_MINUTES_IN_SECS]);
      services.world := Log(services.world, MarkedAt(delivery, id, services.world.now));
      ReachesNext(Next, s, t, Mark(delivery), services.world);
      r := if write.Written? then Ok(()) else Err(Redis);
    }

    method AckNegative(sent: bool) returns (r: Result<(), GcpError>)
      requires Is(Refused)
      modifies services
      ensures Reaches(Next, old(services.world), services.world)
      ensures r == if sent then Ok(()) else Err(NakFailed)
      ensures var m := old(services.world).deliveries[delivery].msg;
        var lease := old(services.world).broker[m];
        services.world.broker ==
          if sent && lease.Leased? && lease.delivery == delivery then old(services.world).broker[m := Queued]
          else old(services.world).broker
      ensures services.world.keys == old(services.world).keys
    {
      ghost var s := services.world;
      ReachesSelf<State, Action>(Next, s);
      var m := services.world.deliveries[delivery].msg;
      var holds := HoldsLease(services.world, delivery);
      services.world := To(services.world, delivery, Gone);
      if sent && holds { services.world := WithLease(services.world, m, Queued); }
      ReachesNext(Next, s, s, if sent then EventDelivery.Action.Nak(delivery) else Drop(delivery), services.world);
      r := if sent then Ok(()) else Err(NakFailed);
    }

    // The stored deadline changes whether or not the broker accepts it; the lease only if
    // the delivery still has it.
    method AckProgress(sent: bool) returns (r: Result<(), GcpError>)
      requires delivery < |services.world.deliveries|
        && services.world.deliveries[delivery].msg < |services.world.broker|
      modifies this, services
      ensures Reaches(Next, old(services.world), services.world)
      ensures var doubled := 2 * old(ackDeadlineSecs);
        ackDeadlineSecs == if -0x8000_0000 <= doubled <= 0x7FFF_FFFF then doubled else old(ackDeadlineSecs)
      ensures ackDeadlineSecs == Extended(old(ackDeadlineSecs))
      ensures r == if sent then Ok(()) else Err(ModifyAckDeadline)
      ensures var m := old(services.world).deliveries[delivery].msg;
        var lease := old(services.world).broker[m];
        var until := old(services.world).now + if ackDeadlineSecs < 0 then 0 else ackDeadlineSecs;
        services.world == old(services.world).(broker :=
          if sent && lease.Leased? && lease.delivery == delivery
          then old(services.world).broker[m := Leased(delivery, until)] else old(services.world).broker)
    {
      ghost var s := services.world;
      ReachesSelf<State, Action>(Next, s);
      if -I32_MAX - 1 <= ackDeadlineSecs * 2 <= I32_MAX { ackDeadlineSecs := ackDeadlineSecs * 2; }
      if !sent { return Err(ModifyAckDeadline); }
      if HoldsLease(services.world, delivery) {
        var until := services.world.now + if ackDeadlineSecs < 0 then 0 else ackDeadlineSecs;
        services.world := WithLease(services.world, services.world.deliveries[delivery].msg, Leased(delivery, until));
        ReachesNext(Next, s, s, Extend(delivery, until), services.world);
      }
      r := Ok(());
    }

    // What the subscription's callback does with a decoded message.
    method OnReceived(existsFails: bool, ack: AckFate) returns (f: Forward)
      requires Is(Received)
      modifies services
      ensures Reaches(Next, old(services.world), services.world)
      ensures services.world.keys == old(services.world).keys
      ensures f.ForwardMessage? <==> (!existsFails && !HasKey(old(services.world), id))
      ensures f.ForwardMessage? ==> Is(Forwarded) && services.world.broker == old(services.world).broker
      ensures f.Acknowledged? <==> (!existsFails && HasKey(old(services.world), id) && (ack.Effective? || ack.TooLate?))
      ensures services.world.broker ==
        if !existsFails && HasKey(old(services.world), id) && (ack.Effective? || ack.Unreported?)
        then old(services.world).broker[old(services.world).deliveries[delivery].msg := Acked]
        else old(services.world).broker
    {
      ghost var s := services.world;
      ReachesSelf<State, Action>(Next, s);
      var processed := IsProcessed(existsFails);
      if processed.Err? {
        services.world := To(services.world, delivery, Gone);
        ReachesNext(Next, s, s, Drop(delivery), services.world);
        return ForwardError(processed.error);
      }
      services.world := Log(To(services.world, delivery, if processed.value then Duplicate else Forwarded),
                            CheckedAt(delivery, id, services.world.now, processed.value));
      ReachesNext(Next, s, s, Check(delivery), services.world);
      if !processed.value { return ForwardMessage; }
      f := AckDuplicateMessage(s, ack);
    }

    method AckDuplicateMessage(ghost s: State, ack: AckFate) returns (f: Forward)
      requires Is(Duplicate) && Reaches(Next, s, services.world)
      modifies services
      ensures Reaches(Next, s, services.world) && services.world.keys == old(services.world).keys
      ensures f == if ack.Effective? || ack.TooLate? then Acknowledged else ForwardError(AckFailed)
      ensures services.world.broker ==
        if ack.Effective? || ack.Unreported?
        then old(services.world).broker[old(services.world).deliveries[delivery].msg := Acked]
        else old(services.world).broker
    {
      ghost var t := services.world;
      var m := services.world.deliveries[delivery].msg;
      services.world := To(services.world, delivery, Gone);
      if ack.Effective? || ack.Unreported? {
        services.world := WithLease(services.world, m, Acked);
        ReachesNext(Next, s, t, AckDuplicate(delivery), services.world);
      } else {
        ReachesNext(Next, s, t, Drop(delivery), services.world);
      }
      f := if ack.Effective? || ack.TooLate? then Acknowledged else ForwardError(AckFailed);
    }
  }

  // The subscription's callback. A message that cannot be decoded is forwarded as its
  // error and keeps its lease until that runs out.
  method Callback(services: Services, delivery: nat, decoded: Result<GcpMessage, GcpError>, existsFails: bool,
                  ack: AckFate)
    returns (f: Forward)
    requires IsAt(services.world, delivery, Received)
    requires decoded.Ok? ==>
      decoded.value.services == services && decoded.value.delivery == delivery && decoded.value.Is(Received)
    modifies services
    ensures Reaches(Next, old(services.world), services.world)
    ensures services.world.keys == old(services.world).keys
    ensures decoded.Err? ==> f == ForwardError(decoded.error) && services.world.broker == old(services.world).broker
    ensures f.ForwardMessage? <==> decoded.Ok? && !existsFails && !HasKey(old(services.world), decoded.value.id)
    ensures services.world.broker ==
      if decoded.Ok? && !existsFails && HasKey(old(services.world), decoded.value.id)
        && (ack.Effective? || ack.Unreported?)
      then old(services.world).broker[old(services.world).deliveries[delivery].msg := Acked]
      else old(services.world).broker
  {
    match decoded {
      case Ok(message) => f := message.OnReceived(existsFails, ack);
      case Err(error) =>
        ghost var s := services.world;
        ReachesSelf<State, Action>(Next, s);
        services.world := To(services.world, delivery, Gone);
        ReachesNext(Next, s, s, Drop(delivery), services.world);
        f := ForwardError(error);
    }
  }

  // Post the event, then acknowledge the message or give it back.
  method ProcessQueueMsg(msg: GcpMessage, posts: bool, ack: AckFate, write: WriteFate)
    requires msg.Is(Forwarded) && (ack.TooLate? ==> !HoldsLease(msg.services.world, msg.delivery))
    modifies msg.services
    ensures Reaches(Next, old(msg.services.world), msg.services.world)
    ensures var m := old(msg.services.world).deliveries[msg.delivery].msg;
      var lease := old(msg.services.world).broker[m];
      msg.services.world.broker ==
        if posts && (ack.Effective? || ack.Unreported?) then old(msg.services.world).broker[m := Acked]
        else if !posts && !ack.NotSent? && lease.Leased? && lease.delivery == msg.delivery
        then old(msg.services.world).broker[m := Queued]
        else old(msg.services.world).broker
    ensures msg.services.world.keys ==
      if posts && (ack.Effective? || ack.TooLate?) && !write.Lost?
      then old(msg.services.world).keys[msg.id := old(msg.services.world).now + 600]
      else old(msg.services.world).keys
  {
    ghost var s := msg.services.world;
    ReachesSelf<State, Action>(Next, s);
    var d := msg.delivery;
    if posts {
      msg.services.world := Log(To(msg.services.world, d, Posted), PostedAt(d, msg.id, msg.services.world.now));
      ReachesNext(Next, s, s, PostOk(d), msg.services.world);
      ghost var t := msg.services.world;
      var acked := msg.AckPositive(ack, write);
      ReachesTrans<State, Action>(Next, s, t, msg.services.world);
    } else {
      msg.services.world := To(msg.services.world, d, Refused);
      ReachesNext(Next, s, s, PostFail(d), msg.services.world);
      ghost var t := msg.services.world;
      var naked := msg.AckNegative(!ack.NotSent?);
      ReachesTrans<State, Action>(Next, s, t, msg.services.world);
    }
  }
}

// The JetStream publisher and the subscriber on top of it, in the shape of the
// source. What the server does with each message comes in as a parameter.
module NatsPublisher {
  import opened Options
  import opened Runs
  import opened Seqs
  import opened TaskLog
  import opened NatsRelay

  datatype NatsError = PublishFailed | StreamInfo

  datatype PublishAck = PublishAck(duplicate: bool)

  // What becomes of one publish: acknowledged, or reported as an error although the
  // message is stored, or lost.
  datatype Fate = Stored | Recognised | StoredUnreported | Lost

  predicate Acked(fate: Fate) {
    fate.Stored? || fate.Recognised?
  }

  // The server recognises only ids that it has stored.
  ghost predicate FatesFor(stream: seq<TaskId>, batch: seq<Task>, fates: seq<Fate>) {
    && |fates| == |batch|
    && forall k :: 0 <= k < |batch| && fates[k].Recognised? ==> batch[k].id in stream
  }

  // The ids that a batch adds to the stream: everything stored up to and including
  // the first message that is not acknowledged.
  function Added(batch: seq<Task>, fates: seq<Fate>): (ids: seq<TaskId>)
    requires |fates| == |batch|
    ensures forall id :: id in ids ==> id in Ids(batch)
    ensures batch == [] ==> ids == []
  {
    if batch == [] then []
    else
      (if fates[0].Stored? || fates[0].StoredUnreported? then [batch[0].id] else [])
      + (if Acked(fates[0]) then Added(batch[1..], fates[1..]) else [])
  }

  lemma AddedFrom(stored: seq<TaskId>, batch: seq<Task>, fates: seq<Fate>, k: nat)
    requires k < |batch| == |fates|
    ensures stored + Added(batch[k..], fates[k..]) ==
      stored + (if fates[k].Stored? || fates[k].StoredUnreported? then [batch[k].id] else [])
             + (if fates[k].Stored? || fates[k].Recognised? then Added(batch[k + 1..], fates[k + 1..]) else [])
  {
    assert batch[k..][1..] == batch[k + 1..] && fates[k..][1..] == fates[k + 1..];
  }

  class JetStream {
    var stored: seq<TaskId>

    constructor ()
      ensures stored == []
    {
      stored := [];
    }

    method Publish(id: TaskId, fate: Fate) returns (r: Result<PublishAck, NatsError>)
      modifies this
      ensures stored == old(stored) + if fate.Stored? || fate.StoredUnreported? then [id] else []
      ensures r ==
        if fate.Stored? || fate.Recognised? then Ok(PublishAck(fate.Recognised?)) else Err(PublishFailed)
    {
      if fate.Stored? || fate.StoredUnreported? { stored := stored + [id]; }
      r := if Acked(fate) then Ok(PublishAck(fate.Recognised?)) else Err(PublishFailed);
    }

    // Messages are sent one by one, each after the previous acknowledgement.
    method PublishBatch(batch: seq<Task>, fates: seq<Fate>) returns (r: Result<seq<PublishAck>, NatsError>)
      requires FatesFor(stored, batch, fates)
      modifies this
      ensures stored == old(stored) + Added(batch, fates)
      ensures r.Ok? <==> forall k :: 0 <= k < |fates| ==> fates[k].Stored? || fates[k].Recognised?
      ensures r.Ok? ==> |r.value| == |batch|
      ensures r.Ok? ==> forall k :: 0 <= k < |batch| ==> r.value[k].duplicate == fates[k].Recognised?
    {
      var output: seq<PublishAck> := [];
      for k := 0 to |batch|
        invariant stored + Added(batch[k..], fates[k..]) == old(stored) + Added(batch, fates)
        invariant |output| == k && forall j :: 0 <= j < k ==>
          Acked(fates[j]) && output[j].duplicate == fates[j].Recognised?
      {
        ghost var was := stored;
        var res := Publish(batch[k].id, fates[k]);
        AddedFrom(was, batch, fates, k);
        if res.Err? { return Err(res.error); }
        output := output + [res.value];
      }
      r := Ok(output);
    }

    method PeekLast(fails: bool) returns (r: Result<Option<TaskId>, NatsError>)
      ensures r == if fails then Err(StreamInfo) else Ok(Last(stored))
    {
      if fails { return Err(StreamInfo); }
      if |stored| == 0 { return Ok(None); }
      r := Ok(Some(stored[|stored| - 1]));
    }
  }

  ghost function World(log: seq<Task>, stored: seq<TaskId>): State {
    State(log, stored, {}, [Idle])
  }

  datatype Services = Services(peekFails: bool, response: Option<seq<Task>>, sorted: seq<Task>, fates: seq<Fate>)

  ghost predicate Faithful(log: seq<Task>, stored: seq<TaskId>, start: nat, end: nat, env: Services) {
    && At(log, Last(stored), start)
    && (env.response.Some? ==> IsPage(log, start, end, env.response.value) && IsSortOf(env.sorted, env.response.value))
    && FatesFor(stored, env.sorted, env.fates)
  }

  class Subscriber {
    const publisher: JetStream

    constructor (publisher: JetStream)
      ensures this.publisher == publisher
    {
      this.publisher := publisher;
    }

    method Subscribe(env: Services, ghost log: seq<Task>, ghost start: nat, ghost end: nat) returns (ok: bool)
      requires Faithful(log, publisher.stored, start, end, env)
      modifies publisher
      ensures Reaches(Next, World(log, old(publisher.stored)), World(log, publisher.stored))
      ensures publisher.stored == old(publisher.stored)
        + if env.peekFails || env.response.None? then [] else Added(env.sorted, env.fates)
      ensures ok <==> (!env.peekFails && env.response.Some?
                       && forall k :: 0 <= k < |env.fates| ==> env.fates[k].Stored? || env.fates[k].Recognised?)
    {
      ghost var s := World(log, publisher.stored);
      ReachesSelf<State, Action>(Next, s);
      var lastTaskId := publisher.PeekLast(env.peekFails);
      if lastTaskId.Err? || env.response.None? { return false; }
      var tasks := env.sorted;
      if tasks == [] { return true; }
      var published := publisher.PublishBatch(tasks, env.fates);
      ok := published.Ok?;
      SubscribeSteps(s, start, end, env);
    }
  }

  lemma SubscribeSteps(s: State, start: nat, end: nat, env: Services)
    requires s.subs == [Idle] && s.onTheWay == {} && Faithful(s.log, s.stream, start, end, env) && env.response.Some?
    ensures Reaches(Next, s, s.(stream := s.stream + Added(env.sorted, env.fates)))
  {
    ReachesSelf<State, Action>(Next, s);
    var peeked := s.(subs := [Peeked(Last(s.stream))]);
    ReachesNext(Next, s, s, Peek(0), peeked);
    var fetched := s.(subs := [Publishing(env.sorted, 0)]);
    ReachesNext(Next, s, peeked, Fetch(0, start, end, env.sorted), fetched);
    SendRest(s, fetched, env.sorted, env.fates, 0);
  }

  // From the k-th message on, the batch's steps end in an idle subscriber.
  lemma SendRest(s: State, t: State, batch: seq<Task>, fates: seq<Fate>, k: nat)
    requires Reaches(Next, s, t) && k <= |batch| && t.subs == [Publishing(batch, k)] && t.onTheWay == {}
    requires FatesFor(t.stream, batch, fates)
    ensures Reaches(Next, s, t.(stream := t.stream + Added(batch[k..], fates[k..]), subs := [Idle]))
    decreases |batch| - k
  {
    if k == |batch| {
      ReachesNext(Next, s, t, Finish(0), t.(subs := [Idle]));
      assert t.stream + [] == t.stream;
    } else {
      var id := batch[k].id;
      assert batch[k..][1..] == batch[k + 1..] && fates[k..][1..] == fates[k + 1..];
      match fates[k]
      case Stored =>
        var u := t.(stream := t.stream + [id], subs := [Publishing(batch, k + 1)]);
        ReachesNext(Next, s, t, Store(0), u);
        SendRest(s, u, batch, fates, k + 1);
        assert Added(batch[k..], fates[k..]) == [id] + Added(batch[k + 1..], fates[k + 1..]);
        Assoc(t.stream, [id], Added(batch[k + 1..], fates[k + 1..]));
      case Recognised =>
        var u := t.(subs := [Publishing(batch, k + 1)]);
        ReachesNext(Next, s, t, Duplicate(0), u);
        SendRest(s, u, batch, fates, k + 1);
        assert Added(batch[k..], fates[k..]) == Added(batch[k + 1..], fates[k + 1..]);
      case StoredUnreported => SendFails(s, t, batch, k, [id], Arrive(id));
      case Lost => SendFails(s, t, batch, k, [], Vanish(id));
    }
  }

  lemma SendFails(s: State, t: State, batch: seq<Task>, k: nat, extra: seq<TaskId>, settle: Action)
    requires Reaches(Next, s, t) && k < |batch| && t.subs == [Publishing(batch, k)] && t.onTheWay == {}
    requires (settle == Arrive(batch[k].id) && extra == [batch[k].id]) || (settle == Vanish(batch[k].id) && extra == [])
    ensures Reaches(Next, s, t.(stream := t.stream + extra, subs := [Idle]))
  {
    var failed := t.(onTheWay := {batch[k].id}, subs := [Idle]);
    ReachesNext(Next, s, t, Fail(0), failed);
    assert failed.onTheWay - {batch[k].id} == {};
    ReachesNext(Next, s, failed, settle, t.(stream := t.stream + extra, subs := [Idle]));
  }
}

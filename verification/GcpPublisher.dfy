// The Pub/Sub publisher, its Redis cursor and the subscriber, in the shape of the
// source. What the services do (faults, arrival order, the sort's choice) comes in
// as parameters; each method states the new stores and that they are reached by
// steps of the relay protocol.
module GcpPublisher {
  import opened Options
  import opened Runs
  import opened Seqs
  import opened TaskLog
  import opened GcpRelay

  datatype GcpError = NoMsgToPublish | Publish | RedisSave | RedisGet

  datatype Write = Written | WrittenUnreported | Lost

  // How a bulk publish goes: the batch positions in the order in which they reach
  // the topic, and the positions whose handle returns Ok.
  datatype Bulk = Bulk(arrivals: seq<nat>, confirmed: set<nat>)

  ghost predicate BulkFor(bulk: Bulk, batch: seq<Task>) {
    && (forall i :: 0 <= i < |bulk.arrivals| ==> bulk.arrivals[i] < |batch|)
    && (forall k :: k in bulk.confirmed ==> k in bulk.arrivals)
    && (batch == [] ==> bulk.arrivals == [])
  }

  function Arrived(batch: seq<Task>, arrivals: seq<nat>): (ids: seq<TaskId>)
    requires forall i :: 0 <= i < |arrivals| ==> arrivals[i] < |batch|
    ensures |ids| == |arrivals| && forall i :: 0 <= i < |ids| ==> ids[i] == batch[arrivals[i]].id
  {
    if arrivals == [] then [] else [batch[arrivals[0]].id] + Arrived(batch, arrivals[1..])
  }

  ghost predicate AllConfirmed(batch: seq<Task>, bulk: Bulk) {
    forall k :: 0 <= k < |batch| ==> k in bulk.confirmed
  }

  class RedisClient {
    var stored: Option<TaskId>

    constructor ()
      ensures stored == None
    {
      stored := None;
    }

    method Upsert(value: TaskId, write: Write) returns (r: Result<(), GcpError>)
      modifies this
      ensures r == if write.Written? then Ok(()) else Err(RedisSave)
      ensures stored == if write.Lost? then old(stored) else Some(value)
    {
      if !write.Lost? { stored := Some(value); }
      r := if write.Written? then Ok(()) else Err(RedisSave);
    }

    method Get(fails: bool) returns (r: Result<Option<TaskId>, GcpError>)
      ensures r == if fails then Err(RedisGet) else Ok(stored)
    {
      r := if fails then Err(RedisGet) else Ok(stored);
    }
  }

  class Topic {
    var messages: seq<TaskId>

    constructor ()
      ensures messages == []
    {
      messages := [];
    }

    // The bulk's workers deliver independently of each other.
    method PublishBulk(batch: seq<Task>, bulk: Bulk)
      requires BulkFor(bulk, batch)
      modifies this
      ensures messages == old(messages) + Arrived(batch, bulk.arrivals)
    {
      for i := 0 to |bulk.arrivals|
        invariant messages + Arrived(batch, bulk.arrivals[i..]) == old(messages) + Arrived(batch, bulk.arrivals)
      {
        assert bulk.arrivals[i..][1..] == bulk.arrivals[i + 1..];
        var id := batch[bulk.arrivals[i]].id;
        Assoc(messages, [id], Arrived(batch, bulk.arrivals[i + 1..]));
        messages := messages + [id];
      }
    }

    // All messages are handed over before the first handle is awaited; the first
    // handle that fails decides the result.
    method PublishBatch(batch: seq<Task>, bulk: Bulk) returns (r: Result<seq<TaskId>, GcpError>)
      requires BulkFor(bulk, batch)
      modifies this
      ensures messages == old(messages) + Arrived(batch, bulk.arrivals)
      ensures (forall k :: 0 <= k < |batch| ==> k in bulk.confirmed) ==> r == Ok(Ids(batch))
      ensures !(forall k :: 0 <= k < |batch| ==> k in bulk.confirmed) ==> r == Err(Publish)
    {
      if batch == [] {
        return Ok([]);
      }
      PublishBulk(batch, bulk);
      var output: seq<TaskId> := [];
      for k := 0 to |batch|
        invariant forall j :: 0 <= j < k ==> j in bulk.confirmed
        invariant output == Ids(batch[..k])
      {
        if k !in bulk.confirmed { return Err(Publish); }
        output := output + [batch[k].id];
      }
      assert batch[..|batch|] == batch;
      r := Ok(output);
    }
  }

  class PeekableGcpPublisher {
    const topic: Topic
    const store: RedisClient

    constructor (topic: Topic, store: RedisClient)
      ensures this.topic == topic && this.store == store
    {
      this.topic := topic;
      this.store := store;
    }

    // The cursor moves to the batch's last id only after the whole batch is confirmed.
    method PublishBatch(batch: seq<Task>, bulk: Bulk, write: Write) returns (r: Result<seq<TaskId>, GcpError>)
      requires BulkFor(bulk, batch)
      modifies topic, store
      ensures topic.messages == old(topic.messages) + Arrived(batch, bulk.arrivals)
      ensures r.Ok? <==> batch != [] && (forall k :: 0 <= k < |batch| ==> k in bulk.confirmed) && write.Written?
      ensures r.Ok? ==> r.value == Ids(batch)
      ensures store.stored ==
        if batch != [] && (forall k :: 0 <= k < |batch| ==> k in bulk.confirmed) && !write.Lost?
        then Some(batch[|batch| - 1].id) else old(store.stored)
    {
      if batch == [] {
        return Err(NoMsgToPublish);
      }
      var lastMsgId := batch[|batch| - 1].id;
      r := topic.PublishBatch(batch, bulk);
      if r.Err? { return; }
      var saved := store.Upsert(lastMsgId, write);
      if saved.Err? { return Err(saved.error); }
    }

    method PeekLast(fails: bool) returns (r: Result<Option<TaskId>, GcpError>)
      ensures r == if fails then Err(RedisGet) else Ok(store.stored)
    {
      r := store.Get(fails);
    }
  }

  // The stores and the log as one state of the protocol, with one subscriber.
  ghost function World(log: seq<Task>, messages: seq<TaskId>, stored: Option<TaskId>): State {
    State(log, messages, stored, [Idle])
  }

  // What the services answer during one call of subscribe.
  datatype Services = Services(peekFails: bool, response: Option<seq<Task>>, sorted: seq<Task>, bulk: Bulk,
                               write: Write)

  // The API answers with a page after the cursor, the sort with a sorted permutation.
  ghost predicate Faithful(log: seq<Task>, cursor: Option<TaskId>, start: nat, end: nat, env: Services) {
    && At(log, cursor, start)
    && (env.response.Some? ==> IsPage(log, start, end, env.response.value) && IsSortOf(env.sorted, env.response.value))
    && BulkFor(env.bulk, env.sorted)
  }

  // One call that met no fault: everything after the cursor, up to the limit, was
  // published once and the cursor names the last task of the sorted batch.
  ghost predicate CleanCycle(log: seq<Task>, limit: nat, cursor: Option<TaskId>, messages: seq<TaskId>,
                             cursor': Option<TaskId>, messages': seq<TaskId>) {
    exists start: nat, sorted: seq<Task> ::
      && At(log, cursor, start) && start <= |log|
      && IsSortOf(sorted, log[start..Min(|log|, start + limit)])
      && multiset(messages') == multiset(messages) + multiset(Ids(sorted))
      && cursor' == if sorted == [] then cursor else Some(sorted[|sorted| - 1].id)
  }

  class Subscriber {
    const publisher: PeekableGcpPublisher

    constructor (publisher: PeekableGcpPublisher)
      ensures this.publisher == publisher
    {
      this.publisher := publisher;
    }

    method Subscribe(env: Services, ghost log: seq<Task>, ghost start: nat, ghost end: nat) returns (ok: bool)
      requires Faithful(log, publisher.store.stored, start, end, env)
      modifies publisher.topic, publisher.store
      ensures Reaches(Next, World(log, old(publisher.topic.messages), old(publisher.store.stored)),
                      World(log, publisher.topic.messages, publisher.store.stored))
      ensures ok <==>
        (!env.peekFails && env.response.Some?
         && (env.sorted == []
             || ((forall k :: 0 <= k < |env.sorted| ==> k in env.bulk.confirmed) && env.write.Written?)))
      ensures publisher.topic.messages == old(publisher.topic.messages)
        + if env.peekFails || env.response.None? then [] else Arrived(env.sorted, env.bulk.arrivals)
      ensures publisher.store.stored ==
        if !env.peekFails && env.response.Some? && env.sorted != []
           && (forall k :: 0 <= k < |env.sorted| ==> k in env.bulk.confirmed) && !env.write.Lost?
        then Some(env.sorted[|env.sorted| - 1].id) else old(publisher.store.stored)
    {
      ghost var s := World(log, publisher.topic.messages, publisher.store.stored);
      ReachesSelf<State, Action>(Next, s);
      var lastTaskId := publisher.PeekLast(env.peekFails);
      if lastTaskId.Err? || env.response.None? { return false; }
      SamePages(env.sorted, env.response.value);
      var tasks := env.sorted;
      if tasks == [] {
        return true;
      }
      var published := publisher.PublishBatch(tasks, env.bulk, env.write);
      ok := published.Ok?;
      SubscribeSteps(s, start, end, env);
    }
  }

  // The steps of one call that got a non-empty page.
  lemma SubscribeSteps(s: State, start: nat, end: nat, env: Services)
    requires s.subs == [Idle] && Faithful(s.log, s.cursor, start, end, env)
    requires env.response.Some? && env.sorted != []
    ensures Reaches(Next, s, s.(topic := s.topic + Arrived(env.sorted, env.bulk.arrivals),
                          cursor := if AllConfirmed(env.sorted, env.bulk) && !env.write.Lost?
                                    then Some(env.sorted[|env.sorted| - 1].id) else s.cursor))
  {
    var batch, arrivals := env.sorted, env.bulk.arrivals;
    ReachesSelf<State, Action>(Next, s);
    var peeked := s.(subs := [Peeked(s.cursor)]);
    ReachesNext(Next, s, s, Peek(0), peeked);
    var fetched := s.(subs := [Publishing(batch, {})]);
    ReachesNext(Next, s, peeked, Fetch(0, start, end, batch), fetched);
    var all := LandAll(s, fetched, batch, {}, arrivals);
    var landed := fetched.(topic := fetched.topic + Arrived(batch, arrivals), subs := [Publishing(batch, all)]);
    var done := landed.(subs := [Idle]);
    if AllConfirmed(batch, env.bulk) && !env.write.Lost? {
      var confirmed := landed.(subs := [Confirmed(batch[|batch| - 1].id)]);
      ReachesNext(Next, s, landed, Confirm(0), confirmed);
      ReachesNext(Next, s, confirmed, Upsert(0), done.(cursor := Some(batch[|batch| - 1].id)));
    } else {
      ReachesNext(Next, s, landed, Abandon(0), done);
    }
  }

  lemma LandAll(s: State, t: State, batch: seq<Task>, landed: set<nat>, arrivals: seq<nat>) returns (landed': set<nat>)
    requires Reaches(Next, s, t) && t.subs == [Publishing(batch, landed)]
    requires forall i :: 0 <= i < |arrivals| ==> arrivals[i] < |batch|
    ensures Reaches(Next, s, t.(topic := t.topic + Arrived(batch, arrivals), subs := [Publishing(batch, landed')]))
    ensures forall k :: k in landed || k in arrivals ==> k in landed'
    decreases |arrivals|
  {
    if arrivals == [] {
      landed' := landed;
      assert t == t.(topic := t.topic + []);
    } else {
      var k := arrivals[0];
      var id := batch[k].id;
      var u := t.(topic := t.topic + [id], subs := [Publishing(batch, landed + {k})]);
      ReachesNext(Next, s, t, Land(0, k), u);
      landed' := LandAll(s, u, batch, landed + {k}, arrivals[1..]);
      Assoc(t.topic, [id], Arrived(batch, arrivals[1..]));
    }
  }

  // No fault occurs, the page is full, and every message reaches the topic once.
  ghost predicate Clean(log: seq<Task>, limit: nat, start: nat, end: nat, env: Services) {
    && !env.peekFails && env.response.Some? && env.write.Written?
    && start <= |log| && end == Min(|log|, start + limit)
    && AllConfirmed(env.sorted, env.bulk)
    && (forall i :: 0 <= i < |env.bulk.arrivals| ==> env.bulk.arrivals[i] < |env.sorted|)
    && multiset(Arrived(env.sorted, env.bulk.arrivals)) == multiset(Ids(env.sorted))
  }

  method CleanSubscribe(subscriber: Subscriber, limit: nat, env: Services, ghost log: seq<Task>, ghost start: nat,
                        ghost end: nat)
    requires Faithful(log, subscriber.publisher.store.stored, start, end, env)
    requires Clean(log, limit, start, end, env)
    modifies subscriber.publisher.topic, subscriber.publisher.store
    ensures CleanCycle(log, limit, old(subscriber.publisher.store.stored), old(subscriber.publisher.topic.messages),
                       subscriber.publisher.store.stored, subscriber.publisher.topic.messages)
  {
    ghost var cursor, messages := subscriber.publisher.store.stored, subscriber.publisher.topic.messages;
    var ok := subscriber.Subscribe(env, log, start, end);
    CleanEffect(log, limit, start, end, env, cursor, messages);
  }

  lemma CleanEffect(log: seq<Task>, limit: nat, start: nat, end: nat, env: Services, cursor: Option<TaskId>,
                    messages: seq<TaskId>)
    requires Faithful(log, cursor, start, end, env) && Clean(log, limit, start, end, env)
    ensures CleanCycle(log, limit, cursor, messages,
                       if env.sorted == [] then cursor else Some(env.sorted[|env.sorted| - 1].id),
                       messages + Arrived(env.sorted, env.bulk.arrivals))
  {
    assert IsSortOf(env.sorted, log[start..end]);
  }

  lemma IdsJoin(log: seq<Task>, a: nat, b: nat, c: nat)
    requires a <= b <= c <= |log|
    ensures Ids(log[a..c]) == Ids(log[a..b]) + Ids(log[b..c])
  {
    assert log[a..c] == log[a..b] + log[b..c];
  }

  lemma CleanPage(log: seq<Task>, limit: nat, n: nat, cursor: Option<TaskId>, messages: seq<TaskId>,
                  cursor': Option<TaskId>, messages': seq<TaskId>) returns (page: seq<Task>)
    requires UniqueIds(log) && StrictlyTimed(log) && n <= |log| && At(log, cursor, n)
    requires CleanCycle(log, limit, cursor, messages, cursor', messages')
    ensures page == log[n..Min(|log|, n + limit)]
    ensures multiset(messages') == multiset(messages) + multiset(Ids(page))
    ensures cursor' == if page == [] then cursor else Some(page[|page| - 1].id)
  {
    var start: nat, sorted: seq<Task> :|
      && At(log, cursor, start) && start <= |log|
      && IsSortOf(sorted, log[start..Min(|log|, start + limit)])
      && multiset(messages') == multiset(messages) + multiset(Ids(sorted))
      && cursor' == if sorted == [] then cursor else Some(sorted[|sorted| - 1].id);
    AtIsFunctional(log, cursor, start, n);
    SortedPage(log, start, Min(|log|, start + limit), sorted);
    page := sorted;
  }

  lemma SortedPage(log: seq<Task>, a: nat, b: nat, sorted: seq<Task>)
    requires StrictlyTimed(log) && a <= b <= |log| && IsSortOf(sorted, log[a..b])
    ensures sorted == log[a..b]
  {
    var page := log[a..b];
    forall i, j | 0 <= i < j < |page| ensures page[i].timestamp < page[j].timestamp {
      assert page[i] == log[a + i] && page[j] == log[a + j];
    }
    SortRestores(sorted, page);
  }

  lemma CursorAfterPage(log: seq<Task>, n: nat, end: nat, page: seq<Task>, cursor: Option<TaskId>,
                        cursor': Option<TaskId>)
    requires n <= end <= |log| && At(log, cursor, n) && page == log[n..end]
    requires cursor' == if page == [] then cursor else Some(page[|page| - 1].id)
    ensures At(log, cursor', end)
  {
  }

  lemma CleanCycleAdvances(log: seq<Task>, limit: nat, n: nat, end: nat, cursor: Option<TaskId>, messages: seq<TaskId>,
                           cursor': Option<TaskId>, messages': seq<TaskId>)
    requires UniqueIds(log) && StrictlyTimed(log) && n <= |log| && At(log, cursor, n)
    requires end == Min(|log|, n + limit)
    requires CleanCycle(log, limit, cursor, messages, cursor', messages')
    ensures At(log, cursor', end)
    ensures multiset(messages') == multiset(messages) + multiset(Ids(log[n..end]))
  {
    var page := CleanPage(log, limit, n, cursor, messages, cursor', messages');
    CursorAfterPage(log, n, end, page, cursor, cursor');
  }

  // Where k calls with the given limit take a cursor at position n of N tasks.
  function Advance(total: nat, n: nat, limit: nat, k: nat): nat {
    Min(total, n + k * limit)
  }

  lemma AdvanceOnce(total: nat, n: nat, limit: nat, k: nat)
    requires 0 < k && n <= total
    ensures n <= Advance(total, n, limit, k - 1)
    ensures Advance(total, n, limit, k) == Min(total, Advance(total, n, limit, k - 1) + limit)
  {
    assert k * limit == (k - 1) * limit + limit;
  }

  // Exact catch-up: k fault-free calls with the given limit move the cursor from
  // position n to min(N, n + k * limit) of a log of length N whose timestamps
  // strictly increase, and publish each task in between exactly once.
  lemma {:induction false} CatchUp(log: seq<Task>, limit: nat, n: nat, k: nat,
                                   cursors: seq<Option<TaskId>>, topics: seq<seq<TaskId>>)
    requires UniqueIds(log) && StrictlyTimed(log)
    requires k < |cursors| == |topics| && n <= |log| && At(log, cursors[0], n)
    requires forall i :: 0 <= i < k ==> CleanCycle(log, limit, cursors[i], topics[i], cursors[i + 1], topics[i + 1])
    ensures n <= Advance(|log|, n, limit, k) && At(log, cursors[k], Advance(|log|, n, limit, k))
    ensures multiset(topics[k]) == multiset(topics[0]) + multiset(Ids(log[n..Advance(|log|, n, limit, k)]))
  {
    if k > 0 {
      var mid, end := Advance(|log|, n, limit, k - 1), Advance(|log|, n, limit, k);
      CatchUp(log, limit, n, k - 1, cursors, topics);
      AdvanceOnce(|log|, n, limit, k);
      CleanCycleAdvances(log, limit, mid, end, cursors[k - 1], topics[k - 1], cursors[k], topics[k]);
      IdsJoin(log, n, mid, end);
    }
  }
}

// The Amplifier component's own polling protocol: ticks that pass a gate spawn
// requests, requests push their tasks on an unbounded channel and then record what
// they queried, a downstream consumer pops, handles and records what it processed.
// The two records are durable; everything else is lost on a restart. Requests may
// overlap, answer late, fail half way, and the tick's three reads are separate steps.
module PollingGate {
  import opened Options
  import opened Runs
  import opened TaskLog

  datatype Tick = NoTick | SawEmpty | ReadProcessed(processed: Option<TaskId>)

  datatype Request = Asked(after: Option<TaskId>) | Sending(rest: seq<Task>, last: TaskId) | Done

  datatype Downstream = Waiting | Handling(task: Task) | Handled(task: Task)

  // handled, sent and origin are history: what downstream handled, what was pushed
  // on the channel since the last restart, and the processed record at that restart.
  datatype State = State(
    log: seq<Task>, processed: Option<TaskId>, queried: Option<TaskId>,
    tick: Tick, requests: seq<Request>, channel: seq<Task>, downstream: Downstream,
    handled: seq<TaskId>, sent: seq<Task>, origin: Option<TaskId>)

  datatype Action =
    | Append(task: Task)
    | TickEmpty | TickProcessed | TickSpawn | TickSkip
    | Respond(r: nat, start: nat, end: nat)
    | Push(r: nat)
    | SetQueried(r: nat)
    | Fail(r: nat)
    | Pop | Handle | SetProcessed
    | Restart

  ghost predicate Next(s: State, a: Action, s': State) {
    match a
    case Append(task) =>
      (forall i :: 0 <= i < |s.log| ==> s.log[i].id != task.id) && s' == s.(log := s.log + [task])
    // the gate: the channel is empty, then the two records are read and compared
    case TickEmpty => s.tick.NoTick? && s.channel == [] && s' == s.(tick := SawEmpty)
    case TickProcessed => s.tick.SawEmpty? && s' == s.(tick := ReadProcessed(s.processed))
    case TickSpawn =>
      && s.tick.ReadProcessed? && s.tick.processed == s.queried
      && s' == s.(tick := NoTick, requests := s.requests + [Asked(s.tick.processed)])
    case TickSkip => s' == s.(tick := NoTick)
    // the response arrives, in log order; an empty one ends the request
    case Respond(r, start, end) =>
      && r < |s.requests| && s.requests[r].Asked?
      && At(s.log, s.requests[r].after, start) && start <= end <= |s.log|
      && s' == s.(requests := s.requests[r := if start == end then Done
                                              else Sending(s.log[start..end], s.log[end - 1].id)])
    case Push(r) =>
      && r < |s.requests| && s.requests[r].Sending? && s.requests[r].rest != []
      && s' == s.(channel := s.channel + [s.requests[r].rest[0]], sent := s.sent + [s.requests[r].rest[0]],
                  requests := s.requests[r := s.requests[r].(rest := s.requests[r].rest[1..])])
    case SetQueried(r) =>
      && r < |s.requests| && s.requests[r].Sending? && s.requests[r].rest == []
      && s' == s.(queried := Some(s.requests[r].last), requests := s.requests[r := Done])
    case Fail(r) => r < |s.requests| && s' == s.(requests := s.requests[r := Done])
    case Pop =>
      && s.downstream.Waiting? && s.channel != []
      && s' == s.(downstream := Handling(s.channel[0]), channel := s.channel[1..])
    case Handle =>
      && s.downstream.Handling?
      && s' == s.(downstream := Handled(s.downstream.task), handled := s.handled + [s.downstream.task.id])
    case SetProcessed =>
      && s.downstream.Handled?
      && s' == s.(downstream := Waiting, processed := Some(s.downstream.task.id))
    // the process dies and starts again
    case Restart => s' == Started(s)
  }

  function Started(s: State): State {
    s.(tick := NoTick, requests := [], channel := [], downstream := Waiting, sent := [], origin := s.processed,
       queried := if s.processed.Some? then s.processed else s.queried)
  }

  ghost predicate Init(s: State) {
    && UniqueIds(s.log) && s.processed == None && s.tick.NoTick? && s.requests == [] && s.channel == []
    && s.downstream.Waiting? && s.handled == [] && s.sent == [] && s.origin == None
  }

  // What has left the channel without being recorded, followed by the channel.
  function Queue(s: State): seq<Task> {
    QueueOf(s.downstream, s.channel)
  }

  function QueueOf(downstream: Downstream, channel: seq<Task>): seq<Task> {
    (if downstream.Waiting? then [] else [downstream.task]) + channel
  }

  // Each of the first n tasks is handled or queued.
  ghost predicate Accounted(log: seq<Task>, handled: seq<TaskId>, queue: seq<Task>, n: nat) {
    n <= |log| && forall j :: 0 <= j < n ==> log[j].id in handled || log[j] in queue
  }

  ghost predicate CursorOk(s: State, cursor: Option<TaskId>) {
    exists n: nat :: At(s.log, cursor, n) && PrefixIn(s.log, s.handled, n)
  }

  ghost predicate RequestOk(s: State, request: Request) {
    match request
    case Asked(after) => CursorOk(s, after)
    case Sending(rest, last) =>
      exists start: nat :: Slice(s.log, start, rest) && Accounted(s.log, s.handled, Queue(s), start)
    case Done => true
  }

  // The k-th queued task comes from the log, and each of its predecessors is handled
  // or queued before it.
  ghost predicate QueuedInOrder(log: seq<Task>, handled: seq<TaskId>, queue: seq<Task>, k: nat)
    requires k < |queue|
  {
    exists p: nat :: p < |log| && log[p] == queue[k] && Accounted(log, handled, queue[..k], p)
  }

  ghost predicate Inv(s: State) {
    && UniqueIds(s.log)
    && CursorOk(s, s.processed)
    && (s.tick.ReadProcessed? ==> CursorOk(s, s.tick.processed))
    && (s.downstream.Handled? ==> s.downstream.task.id in s.handled)
    && (forall k :: 0 <= k < |Queue(s)| ==> QueuedInOrder(s.log, s.handled, Queue(s), k))
    && (forall r :: 0 <= r < |s.requests| ==> RequestOk(s, s.requests[r]))
  }

  lemma CursorGrows(s: State, s': State, cursor: Option<TaskId>)
    requires CursorOk(s, cursor) && s.log <= s'.log && s.handled <= s'.handled
    ensures CursorOk(s', cursor)
  {
    var n: nat :| At(s.log, cursor, n) && PrefixIn(s.log, s.handled, n);
    assert At(s'.log, cursor, n) && PrefixIn(s'.log, s'.handled, n);
  }

  // A task may leave the front of the queue once it is handled.
  ghost predicate QueueKeeps(s: State, s': State) {
    && s.log <= s'.log && s.handled <= s'.handled
    && forall t :: t in Queue(s) ==> t in Queue(s') || t.id in s'.handled
  }

  lemma RequestGrows(s: State, s': State, request: Request)
    requires RequestOk(s, request) && QueueKeeps(s, s')
    ensures RequestOk(s', request)
  {
    match request
    case Asked(after) => CursorGrows(s, s', after);
    case Sending(rest, last) =>
      var start: nat :| Slice(s.log, start, rest) && Accounted(s.log, s.handled, Queue(s), start);
      assert Slice(s'.log, start, rest) && Accounted(s'.log, s'.handled, Queue(s'), start);
    case Done =>
  }

  ghost predicate OnlyDiffers(a: seq<Request>, b: seq<Request>, r: nat) {
    |a| <= |b| && forall q :: 0 <= q < |b| && q != r ==> q < |a| && b[q] == a[q]
  }

  lemma RequestsGrow(s: State, s': State, r: nat)
    requires Inv(s) && QueueKeeps(s, s') && OnlyDiffers(s.requests, s'.requests, r)
    requires r < |s'.requests| ==> RequestOk(s', s'.requests[r])
    ensures forall q :: 0 <= q < |s'.requests| ==> RequestOk(s', s'.requests[q])
  {
    forall q | 0 <= q < |s'.requests| ensures RequestOk(s', s'.requests[q]) {
      if q != r { RequestGrows(s, s', s'.requests[q]); }
    }
  }

  // Queued tasks stay in order while the log and the handled tasks grow.
  lemma QueueGrows(s: State, s': State, k: nat)
    requires Inv(s) && s.log <= s'.log && s.handled <= s'.handled
    requires k < |Queue(s)| && Queue(s) <= Queue(s')
    ensures QueuedInOrder(s'.log, s'.handled, Queue(s'), k)
  {
    assert QueuedInOrder(s.log, s.handled, Queue(s), k);
    var p: nat :| p < |s.log| && s.log[p] == Queue(s)[k] && Accounted(s.log, s.handled, Queue(s)[..k], p);
    assert Queue(s')[..k] == Queue(s)[..k];
    assert s'.log[p] == Queue(s')[k] && Accounted(s'.log, s'.handled, Queue(s')[..k], p);
  }

  // Steps after which the queue is the same and at most request r is new.
  lemma InvSameQueue(s: State, s': State, r: nat)
    requires Inv(s) && UniqueIds(s'.log) && s.log <= s'.log && s.handled <= s'.handled && Queue(s') == Queue(s)
    requires OnlyDiffers(s.requests, s'.requests, r)
    requires r < |s'.requests| ==> RequestOk(s', s'.requests[r])
    requires s'.processed == s.processed
    requires s'.tick.ReadProcessed? ==> s'.tick == s.tick || s'.tick.processed == s.processed
    requires s'.downstream.Handled? ==> s'.downstream.task.id in s'.handled
    ensures Inv(s')
  {
    CursorGrows(s, s', s.processed);
    if s'.tick.ReadProcessed? { CursorGrows(s, s', s'.tick.processed); }
    RequestsGrow(s, s', r);
    forall k | 0 <= k < |Queue(s')| ensures QueuedInOrder(s'.log, s'.handled, Queue(s'), k) {
      QueueGrows(s, s', k);
    }
  }

  lemma InvRespond(s: State, r: nat, start: nat, end: nat, s': State)
    requires Inv(s) && Next(s, Respond(r, start, end), s')
    ensures Inv(s')
  {
    assert RequestOk(s, s.requests[r]);
    var n: nat :| At(s.log, s.requests[r].after, n) && PrefixIn(s.log, s.handled, n);
    AtIsFunctional(s.log, s.requests[r].after, n, start);
    if start < end {
      assert Slice(s'.log, start, s.log[start..end]) && Accounted(s'.log, s'.handled, Queue(s'), start);
    }
    InvSameQueue(s, s', r);
  }

  lemma InvPush(s: State, r: nat, s': State)
    requires Inv(s) && Next(s, Push(r), s')
    ensures Inv(s')
  {
    var rest, q := s.requests[r].rest, Queue(s);
    assert RequestOk(s, s.requests[r]);
    var start: nat :| Slice(s.log, start, rest) && Accounted(s.log, s.handled, q, start);
    assert Queue(s') == q + [rest[0]];
    assert s.log[start] == rest[0];
    assert Slice(s'.log, start + 1, rest[1..]) && Accounted(s'.log, s'.handled, Queue(s'), start + 1);
    RequestsGrow(s, s', r);
    CursorGrows(s, s', s.processed);
    if s.tick.ReadProcessed? { CursorGrows(s, s', s.tick.processed); }
    forall k | 0 <= k < |Queue(s')| ensures QueuedInOrder(s'.log, s'.handled, Queue(s'), k) {
      if k < |q| {
        QueueGrows(s, s', k);
      } else {
        assert Queue(s')[..k] == q;
        assert s'.log[start] == Queue(s')[k] && Accounted(s'.log, s'.handled, Queue(s')[..k], start);
      }
    }
  }

  // The front of the queue leaves it once it is handled.
  lemma QueueShrinks(log: seq<Task>, handled: seq<TaskId>, t: Task, rest: seq<Task>, k: nat)
    requires k < |rest| && t.id in handled && QueuedInOrder(log, handled, [t] + rest, k + 1)
    ensures QueuedInOrder(log, handled, rest, k)
  {
    var q := [t] + rest;
    var p: nat :| p < |log| && log[p] == q[k + 1] && Accounted(log, handled, q[..k + 1], p);
    assert q[..k + 1] == [t] + rest[..k];
    assert log[p] == rest[k] && Accounted(log, handled, rest[..k], p);
  }

  lemma FrontIsCursor(s: State, s': State, t: Task, rest: seq<Task>)
    requires QueuedInOrder(s.log, s.handled, [t] + rest, 0) && t.id in s.handled
    requires s'.log == s.log && s'.handled == s.handled
    ensures CursorOk(s', Some(t.id))
  {
    var q := [t] + rest;
    var p: nat :| p < |s.log| && s.log[p] == q[0] && Accounted(s.log, s.handled, q[..0], p);
    assert At(s.log, Some(t.id), p + 1) && PrefixIn(s'.log, s'.handled, p + 1);
  }

  lemma InvSetProcessed(s: State, s': State)
    requires Inv(s) && Next(s, SetProcessed, s')
    ensures Inv(s')
  {
    var q, t := Queue(s), s.downstream.task;
    assert q == [t] + s.channel && Queue(s') == s.channel;
    assert QueuedInOrder(s.log, s.handled, q, 0);
    FrontIsCursor(s, s', t, s.channel);
    if s.tick.ReadProcessed? { CursorGrows(s, s', s.tick.processed); }
    RequestsGrow(s, s', |s.requests|);
    forall k | 0 <= k < |s.channel| ensures QueuedInOrder(s'.log, s'.handled, Queue(s'), k) {
      assert QueuedInOrder(s.log, s.handled, q, k + 1);
      QueueShrinks(s.log, s.handled, t, s.channel, k);
    }
  }

  lemma InvNext(s: State, a: Action, s': State)
    requires Inv(s) && Next(s, a, s')
    ensures Inv(s')
  {
    match a
    case Append(task) => InvSameQueue(s, s', |s.requests|);
    case TickEmpty => InvSameQueue(s, s', |s.requests|);
    case TickProcessed => InvSameQueue(s, s', |s.requests|);
    case TickSkip => InvSameQueue(s, s', |s.requests|);
    case TickSpawn =>
      CursorGrows(s, s', s.tick.processed);
      InvSameQueue(s, s', |s.requests|);
    case Respond(r, start, end) => InvRespond(s, r, start, end, s');
    case Push(r) => InvPush(s, r, s');
    case SetQueried(r) => InvSameQueue(s, s', r);
    case Fail(r) => InvSameQueue(s, s', r);
    case Pop =>
      assert Queue(s') == Queue(s);
      InvSameQueue(s, s', |s.requests|);
    case Handle => InvSameQueue(s, s', |s.requests|);
    case SetProcessed => InvSetProcessed(s, s');
    case Restart => CursorGrows(s, s', s.processed);
  }

  lemma EveryStepKeepsInv()
    ensures forall s, a, s' :: Inv(s) && Next(s, a, s') ==> Inv(s')
  {
    forall s, a, s' | Inv(s) && Next(s, a, s') ensures Inv(s') { InvNext(s, a, s'); }
  }

  lemma InitKeepsInv(s: State)
    requires Init(s)
    ensures Inv(s)
  {
    assert At(s.log, None, 0) && PrefixIn(s.log, s.handled, 0);
  }

  // The k-th task on the channel comes from the log; each of its predecessors is
  // handled, in the hands of downstream, or ahead of it on the channel.
  ghost predicate PredecessorsSettled(s: State, k: nat)
    requires k < |s.channel|
  {
    exists p :: 0 <= p < |s.log| && s.log[p] == s.channel[k]
      && forall j :: 0 <= j < p ==>
           || s.log[j].id in s.handled
           || (!s.downstream.Waiting? && s.downstream.task == s.log[j])
           || s.log[j] in s.channel[..k]
  }

  // No gap, over whole runs: everything up to the processed record has been handled,
  // and before any task on the channel, all its predecessors are handled, in the
  // hands of downstream, or ahead of it on the channel.
  lemma NoGap(run: seq<State>, acts: seq<Action>, i: nat)
    requires IsRun(Next, run, acts) && Init(run[0]) && i < |run|
    ensures run[i].processed.Some? ==>
      exists p :: 0 <= p < |run[i].log| && run[i].log[p].id == run[i].processed.value
               && forall j :: 0 <= j <= p ==> run[i].log[j].id in run[i].handled
    ensures forall k :: 0 <= k < |run[i].channel| ==> PredecessorsSettled(run[i], k)
  {
    InitKeepsInv(run[0]);
    EveryStepKeepsInv();
    Invariant(Next, Inv, run, acts, i);
    ProcessedMeans(run[i]);
    ChannelMeans(run[i]);
  }

  lemma ProcessedMeans(s: State)
    requires Inv(s)
    ensures s.processed.Some? ==>
      exists p :: 0 <= p < |s.log| && s.log[p].id == s.processed.value
               && forall j :: 0 <= j <= p ==> s.log[j].id in s.handled
  {
    var n: nat :| At(s.log, s.processed, n) && PrefixIn(s.log, s.handled, n);
    if s.processed.Some? { assert s.log[n - 1].id == s.processed.value; }
  }

  lemma ChannelMeans(s: State)
    requires Inv(s)
    ensures forall k :: 0 <= k < |s.channel| ==> PredecessorsSettled(s, k)
  {
    var q, d := Queue(s), if s.downstream.Waiting? then 0 else 1;
    forall k | 0 <= k < |s.channel| ensures PredecessorsSettled(s, k) {
      assert QueuedInOrder(s.log, s.handled, q, k + d);
      var p: nat :| p < |s.log| && s.log[p] == q[k + d] && Accounted(s.log, s.handled, q[..k + d], p);
      assert q[..k + d] == q[..d] + s.channel[..k];
      assert s.log[p] == s.channel[k];
    }
  }
}

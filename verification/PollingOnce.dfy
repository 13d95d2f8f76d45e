// When the polling protocol sends a task more than once between two restarts: exactly
// what a tick would have to check before it spawns a request.
module PollingOnce {
  import opened Options
  import opened Runs
  import opened Seqs
  import opened TaskLog
  import opened PollingGate

  predicate Quiet(requests: seq<Request>) {
    forall r :: 0 <= r < |requests| ==> requests[r].Done?
  }

  // The check that the tick does not make: no request is unfinished, and what was sent
  // last is what is recorded as queried.
  predicate Safe(s: State) {
    Quiet(s.requests) && (s.sent != [] ==> s.queried == Some(s.sent[|s.sent| - 1].id))
  }

  // Steps of one process, with any faults, whose spawns are all safe.
  ghost predicate GuardedNext(s: State, a: Action, s': State) {
    Next(s, a, s') && !a.Restart? && (a.TickSpawn? ==> Safe(s))
  }

  // A task was sent twice.
  ghost predicate Repeats(sent: seq<Task>) {
    exists i, j :: 0 <= i < j < |sent| && sent[i] == sent[j]
  }

  // The tasks sent since the restart follow its cursor in the log.
  ghost predicate SentOk(log: seq<Task>, origin: Option<TaskId>, c: nat, sent: seq<Task>) {
    UniqueIds(log) && At(log, origin, c) && Slice(log, c, sent)
  }

  // The queue is the tail of what was sent, and the processed record is right before it.
  ghost predicate QueueOk(log: seq<Task>, processed: Option<TaskId>, c: nat, sent: seq<Task>, queue: seq<Task>) {
    && |queue| <= |sent| && queue == sent[|sent| - |queue|..]
    && At(log, processed, c + |sent| - |queue|)
  }

  // What was handled since the restart is the first h tasks sent.
  ghost predicate HandledOk(handled: seq<TaskId>, base: seq<TaskId>, sent: seq<Task>, h: nat) {
    h <= |sent| && handled == base + Ids(sent[..h])
  }

  function HandledCount(sent: seq<Task>, queue: seq<Task>, downstream: Downstream): nat
    requires |queue| <= |sent|
  {
    |sent| - |queue| + if downstream.Handled? then 1 else 0
  }

  ghost predicate Segment(s: State, base: seq<TaskId>, c: nat) {
    && SentOk(s.log, s.origin, c, s.sent)
    && QueueOk(s.log, s.processed, c, s.sent, Queue(s))
    && HandledOk(s.handled, base, s.sent, HandledCount(s.sent, Queue(s), s.downstream))
  }

  // At most one request is unfinished; it continues from the end of what was sent.
  ghost predicate ActiveOk(log: seq<Task>, request: Request, end: nat) {
    match request
    case Asked(after) => At(log, after, end)
    case Sending(rest, last) => Slice(log, end, rest) && At(log, Some(last), end + |rest|)
    case Done => false
  }

  ghost predicate OnlyActive(requests: seq<Request>, r: nat) {
    forall q :: 0 <= q < |requests| && q != r ==> requests[q].Done?
  }

  ghost predicate RequestsOk(log: seq<Task>, requests: seq<Request>, active: Option<nat>, end: nat) {
    match active
    case None => Quiet(requests)
    case Some(r) => r < |requests| && OnlyActive(requests, r) && ActiveOk(log, requests[r], end)
  }

  // The queried record names position e of the log, behind what was sent at most; it is
  // right there while a request waits for its response.
  ghost predicate QueriedAt(log: seq<Task>, queried: Option<TaskId>, requests: seq<Request>, active: Option<nat>,
                            c: nat, end: nat, e: nat) {
    && c <= e <= end && At(log, queried, e)
    && (active.Some? && active.value < |requests| ==> PositionOk(requests[active.value], end, e))
  }

  predicate PositionOk(request: Request, end: nat, e: nat) {
    match request
    case Asked(_) => e == end
    case Sending(rest, _) => rest == [] ==> e < end
    case Done => true
  }

  // Nothing passes the gate when a queried record survived without a processed one.
  ghost predicate Blocked(s: State) {
    s.origin == None && s.queried.Some? && s.sent == [] && Quiet(s.requests)
  }

  ghost predicate Gate(s: State, c: nat, active: Option<nat>, e: nat) {
    && RequestsOk(s.log, s.requests, active, c + |s.sent|)
    && (s.sent == [] && s.tick.ReadProcessed? ==> At(s.log, s.tick.processed, c))
    && (Blocked(s) || QueriedAt(s.log, s.queried, s.requests, active, c, c + |s.sent|, e))
  }

  lemma SliceGrows(log: seq<Task>, task: Task, start: nat, tasks: seq<Task>)
    requires Slice(log, start, tasks)
    ensures Slice(log + [task], start, tasks)
  {
    assert (log + [task])[start..start + |tasks|] == log[start..start + |tasks|];
  }

  lemma SegmentAppend(s: State, base: seq<TaskId>, c: nat, task: Task, s': State)
    requires Segment(s, base, c) && Next(s, Append(task), s')
    ensures Segment(s', base, c)
  {
    SliceGrows(s.log, task, c, s.sent);
    assert QueueOk(s'.log, s'.processed, c, s'.sent, Queue(s'));
  }

  lemma ActiveAppend(log: seq<Task>, request: Request, end: nat, task: Task)
    requires ActiveOk(log, request, end)
    ensures ActiveOk(log + [task], request, end)
  {
    if request.Sending? { SliceGrows(log, task, end, request.rest); }
  }

  lemma GateAppend(s: State, c: nat, active: Option<nat>, e: nat, task: Task, s': State)
    requires Gate(s, c, active, e) && Next(s, Append(task), s')
    ensures Gate(s', c, active, e)
  {
    if active.Some? { ActiveAppend(s.log, s.requests[active.value], c + |s.sent|, task); }
  }

  lemma SliceMoves(log: seq<Task>, start: nat, sent: seq<Task>, rest: seq<Task>)
    requires Slice(log, start, sent) && Slice(log, start + |sent|, rest) && rest != []
    ensures Slice(log, start, sent + [rest[0]]) && Slice(log, start + |sent| + 1, rest[1..])
  {
    assert log[start + |sent|] == rest[0];
  }

  lemma QueuePush(log: seq<Task>, processed: Option<TaskId>, c: nat, sent: seq<Task>, queue: seq<Task>, t: Task)
    requires QueueOk(log, processed, c, sent, queue)
    ensures QueueOk(log, processed, c, sent + [t], queue + [t])
  {
  }

  lemma HandledPush(handled: seq<TaskId>, base: seq<TaskId>, sent: seq<Task>, h: nat, t: Task)
    requires HandledOk(handled, base, sent, h)
    ensures HandledOk(handled, base, sent + [t], h)
  {
    assert (sent + [t])[..h] == sent[..h];
  }

  lemma QueueOfPush(downstream: Downstream, channel: seq<Task>, t: Task)
    ensures QueueOf(downstream, channel + [t]) == QueueOf(downstream, channel) + [t]
  {
  }

  lemma RequestsPush(log: seq<Task>, requests: seq<Request>, active: Option<nat>, start: nat, sent: seq<Task>, r: nat)
    requires Slice(log, start, sent) && RequestsOk(log, requests, active, start + |sent|)
    requires r < |requests| && requests[r].Sending? && requests[r].rest != []
    ensures active == Some(r) && Slice(log, start, sent + [requests[r].rest[0]])
    ensures RequestsOk(log, requests[r := requests[r].(rest := requests[r].rest[1..])], active, start + |sent| + 1)
  {
    assert !requests[r].Done?;
    SliceMoves(log, start, sent, requests[r].rest);
  }

  // The pushing request is the active one, and it pushes the log's next task.
  lemma PushesNext(s: State, c: nat, active: Option<nat>, r: nat, s': State)
    requires SentOk(s.log, s.origin, c, s.sent) && RequestsOk(s.log, s.requests, active, c + |s.sent|)
      && Next(s, Push(r), s')
    ensures active == Some(r) && s'.sent == s.sent + [s.requests[r].rest[0]]
    ensures SentOk(s'.log, s'.origin, c, s'.sent)
    ensures RequestsOk(s'.log, s'.requests, active, c + |s'.sent|)
  {
    RequestsPush(s.log, s.requests, active, c, s.sent, r);
  }

  lemma SegmentPush(s: State, base: seq<TaskId>, c: nat, active: Option<nat>, r: nat, s': State)
    requires Segment(s, base, c) && RequestsOk(s.log, s.requests, active, c + |s.sent|) && Next(s, Push(r), s')
    ensures Segment(s', base, c)
  {
    PushesNext(s, c, active, r, s');
    var t := s.requests[r].rest[0];
    QueuePush(s.log, s.processed, c, s.sent, Queue(s), t);
    var h := HandledCount(s.sent, Queue(s), s.downstream);
    HandledPush(s.handled, base, s.sent, h, t);
    QueueOfPush(s.downstream, s.channel, t);
    assert HandledCount(s'.sent, Queue(s'), s'.downstream) == h;
  }

  lemma PositionPush(requests: seq<Request>, r: nat, end: nat, e: nat)
    requires r < |requests| && requests[r].Sending? && requests[r].rest != [] && e <= end
    ensures PositionOk(requests[r].(rest := requests[r].rest[1..]), end + 1, e)
  {
  }

  lemma GatePush(s: State, c: nat, active: Option<nat>, e: nat, r: nat, s': State)
    requires SentOk(s.log, s.origin, c, s.sent) && Gate(s, c, active, e) && Next(s, Push(r), s')
    ensures Gate(s', c, active, e)
  {
    PushesNext(s, c, active, r, s');
    assert !Blocked(s) by { assert !s.requests[r].Done?; }
    PositionPush(s.requests, r, c + |s.sent|, e);
  }

  lemma HandledOne(handled: seq<TaskId>, base: seq<TaskId>, sent: seq<Task>, h: nat, t: Task)
    requires HandledOk(handled, base, sent, h) && h < |sent| && sent[h] == t
    ensures HandledOk(handled + [t.id], base, sent, h + 1)
  {
    assert sent[..h + 1] == sent[..h] + [t];
    assert Ids(sent[..h + 1]) == Ids(sent[..h]) + [t.id];
    Assoc(base, Ids(sent[..h]), [t.id]);
  }

  lemma QueueFront(log: seq<Task>, processed: Option<TaskId>, c: nat, sent: seq<Task>, queue: seq<Task>)
    requires QueueOk(log, processed, c, sent, queue) && queue != []
    ensures queue[0] == sent[|sent| - |queue|]
  {
  }

  lemma QueuePop(log: seq<Task>, processed: Option<TaskId>, c: nat, sent: seq<Task>, queue: seq<Task>)
    requires QueueOk(log, processed, c, sent, queue) && Slice(log, c, sent) && queue != []
    ensures QueueOk(log, Some(queue[0].id), c, sent, queue[1..])
  {
    var k := |sent| - |queue|;
    assert sent[k] == queue[0] == log[c + k];
  }

  lemma SegmentPop(s: State, base: seq<TaskId>, c: nat, s': State)
    requires Segment(s, base, c) && s.downstream.Waiting? && s.channel != []
    requires s' == s.(downstream := Handling(s.channel[0]), channel := s.channel[1..])
    ensures Segment(s', base, c)
  {
    assert Queue(s') == Queue(s) by { assert [s.channel[0]] + s.channel[1..] == s.channel; }
  }

  lemma SegmentHandle(s: State, base: seq<TaskId>, c: nat, s': State)
    requires Segment(s, base, c) && s.downstream.Handling?
    requires s' == s.(downstream := Handled(s.downstream.task), handled := s.handled + [s.downstream.task.id])
    ensures Segment(s', base, c)
  {
    var t := s.downstream.task;
    QueueFront(s.log, s.processed, c, s.sent, Queue(s));
    HandledOne(s.handled, base, s.sent, |s.sent| - |Queue(s)|, t);
    assert Queue(s') == Queue(s);
  }

  lemma SegmentSetProcessed(s: State, base: seq<TaskId>, c: nat, s': State)
    requires Segment(s, base, c) && s.downstream.Handled?
    requires s' == s.(downstream := Waiting, processed := Some(s.downstream.task.id))
    ensures Segment(s', base, c)
  {
    var q := Queue(s);
    assert q != [] && q[0] == s.downstream.task && q[1..] == s.channel == Queue(s');
    QueuePop(s.log, s.processed, c, s.sent, q);
    assert HandledCount(s'.sent, Queue(s'), s'.downstream) == HandledCount(s.sent, q, s.downstream);
  }

  lemma SegmentStill(s: State, base: seq<TaskId>, c: nat, s': State)
    requires Segment(s, base, c) && s'.log == s.log && s'.processed == s.processed && s'.channel == s.channel
    requires s'.downstream == s.downstream && s'.handled == s.handled && s'.sent == s.sent && s'.origin == s.origin
    ensures Segment(s', base, c)
  {
  }

  lemma QueueStill(s: State, a: Action, s': State)
    requires GuardedNext(s, a, s')
    requires !a.Append? && !a.Push? && !a.Pop? && !a.Handle? && !a.SetProcessed?
    ensures s'.log == s.log && s'.processed == s.processed && s'.channel == s.channel
    ensures s'.downstream == s.downstream && s'.handled == s.handled && s'.sent == s.sent && s'.origin == s.origin
  {
  }

  lemma SegmentNext(s: State, base: seq<TaskId>, c: nat, active: Option<nat>, e: nat, a: Action, s': State)
    requires Segment(s, base, c) && Gate(s, c, active, e) && GuardedNext(s, a, s')
    ensures Segment(s', base, c)
  {
    match a
    case Append(task) => SegmentAppend(s, base, c, task, s');
    case Push(r) => SegmentPush(s, base, c, active, r, s');
    case Pop => SegmentPop(s, base, c, s');
    case Handle => SegmentHandle(s, base, c, s');
    case SetProcessed => SegmentSetProcessed(s, base, c, s');
    case _ =>
      QueueStill(s, a, s');
      SegmentStill(s, base, c, s');
  }

  lemma GateRespond(s: State, c: nat, active: Option<nat>, e: nat, r: nat, start: nat, end: nat, s': State)
    returns (active': Option<nat>)
    requires UniqueIds(s.log) && Gate(s, c, active, e) && Next(s, Respond(r, start, end), s')
    ensures Gate(s', c, active', e)
  {
    assert !s.requests[r].Done?;
    AtIsFunctional(s.log, s.requests[r].after, c + |s.sent|, start);
    active' := if start == end then None else active;
  }

  lemma GateSetQueried(s: State, c: nat, active: Option<nat>, e: nat, r: nat, s': State)
    requires Gate(s, c, active, e) && Next(s, SetQueried(r), s')
    ensures Gate(s', c, None, c + |s.sent|)
  {
    assert !s.requests[r].Done?;
  }

  lemma GateFail(s: State, c: nat, active: Option<nat>, e: nat, r: nat, s': State) returns (active': Option<nat>)
    requires Gate(s, c, active, e) && Next(s, Fail(r), s')
    ensures Gate(s', c, active', e)
  {
    active' := if s.requests[r].Done? then active else None;
    if s.requests[r].Done? { assert s'.requests == s.requests; }
  }

  // Downstream and the reads of a tick touch neither requests nor the queried record.
  lemma GateStill(s: State, c: nat, active: Option<nat>, e: nat, s': State)
    requires Gate(s, c, active, e) && s'.log == s.log && s'.requests == s.requests && s'.queried == s.queried
    requires s'.sent == s.sent && s'.origin == s.origin
    requires s'.sent == [] && s'.tick.ReadProcessed? ==> At(s'.log, s'.tick.processed, c)
    ensures Gate(s', c, active, e)
  {
  }

  // A blocked record is not equal to what a tick has read.
  lemma SpawnNotBlocked(s: State, c: nat, active: Option<nat>, e: nat, s': State)
    requires SentOk(s.log, s.origin, c, s.sent) && Gate(s, c, active, e) && Next(s, TickSpawn, s')
    ensures QueriedAt(s.log, s.queried, s.requests, active, c, c + |s.sent|, e)
  {
  }

  lemma SentEnd(log: seq<Task>, c: nat, sent: seq<Task>, queried: Option<TaskId>, e: nat)
    requires UniqueIds(log) && Slice(log, c, sent) && c <= e <= c + |sent| && At(log, queried, e)
    ensures (sent != [] ==> queried == Some(sent[|sent| - 1].id)) <==> e == c + |sent|
  {
    if sent != [] { assert log[c + |sent| - 1] == sent[|sent| - 1]; }
  }

  lemma SpawnRequests(log: seq<Task>, requests: seq<Request>, queried: Option<TaskId>, end: nat)
    requires Quiet(requests) && At(log, queried, end)
    ensures RequestsOk(log, requests + [Asked(queried)], Some(|requests|), end)
  {
  }

  // A safe spawn asks for what follows the last task sent.
  lemma GateSpawn(s: State, c: nat, active: Option<nat>, e: nat, s': State)
    requires SentOk(s.log, s.origin, c, s.sent) && Gate(s, c, active, e) && Next(s, TickSpawn, s') && Safe(s)
    ensures Gate(s', c, Some(|s.requests|), e)
  {
    SpawnNotBlocked(s, c, active, e, s');
    SentEnd(s.log, c, s.sent, s.queried, e);
    SpawnRequests(s.log, s.requests, s.queried, e);
    SpawnPosition(s, s', c, active, e);
  }

  lemma SpawnPosition(s: State, s': State, c: nat, active: Option<nat>, e: nat)
    requires Next(s, TickSpawn, s') && e == c + |s.sent|
    requires QueriedAt(s.log, s.queried, s.requests, active, c, c + |s.sent|, e)
    ensures QueriedAt(s'.log, s'.queried, s'.requests, Some(|s.requests|), c, c + |s'.sent|, e)
  {
  }

  lemma NothingSent(log: seq<Task>, processed: Option<TaskId>, c: nat, queue: seq<Task>)
    requires QueueOk(log, processed, c, [], queue)
    ensures At(log, processed, c)
  {
  }

  lemma GateTick(s: State, base: seq<TaskId>, c: nat, active: Option<nat>, e: nat, a: Action, s': State)
    requires Segment(s, base, c) && Gate(s, c, active, e) && Next(s, a, s')
    requires a.TickEmpty? || a.TickProcessed? || a.TickSkip?
    ensures Gate(s', c, active, e)
  {
    if s.sent == [] { NothingSent(s.log, s.processed, c, Queue(s)); }
    GateStill(s, c, active, e, s');
  }

  lemma GateDownstream(s: State, c: nat, active: Option<nat>, e: nat, a: Action, s': State)
    requires Gate(s, c, active, e) && Next(s, a, s') && (a.Pop? || a.Handle? || a.SetProcessed?)
    ensures Gate(s', c, active, e)
  {
    GateStill(s, c, active, e, s');
  }

  lemma GateRequest(s: State, c: nat, active: Option<nat>, e: nat, a: Action, s': State)
    returns (active': Option<nat>, e': nat)
    requires UniqueIds(s.log) && Gate(s, c, active, e) && Next(s, a, s') && (a.Respond? || a.SetQueried? || a.Fail?)
    ensures Gate(s', c, active', e')
  {
    active', e' := None, e;
    match a
    case Respond(r, start, end) => active' := GateRespond(s, c, active, e, r, start, end, s');
    case SetQueried(r) =>
      GateSetQueried(s, c, active, e, r, s');
      e' := c + |s.sent|;
    case Fail(r) => active' := GateFail(s, c, active, e, r, s');
  }

  lemma GateNext(s: State, base: seq<TaskId>, c: nat, active: Option<nat>, e: nat, a: Action, s': State)
    returns (active': Option<nat>, e': nat)
    // "== true" keeps the predicate folded
    requires Segment(s, base, c) && Gate(s, c, active, e) == true && GuardedNext(s, a, s')
    ensures Gate(s', c, active', e') == true
  {
    active', e' := if a.TickSpawn? then Some(|s.requests|) else active, e;
    if a.Append? {
      GateAppend(s, c, active, e, a.task, s');
    } else if a.Push? {
      GatePush(s, c, active, e, a.r, s');
    } else if a.Respond? || a.SetQueried? || a.Fail? {
      active', e' := GateRequest(s, c, active, e, a, s');
    } else if a.Pop? || a.Handle? || a.SetProcessed? {
      GateDownstream(s, c, active, e, a, s');
    } else if a.TickSpawn? {
      GateSpawn(s, c, active, e, s');
    } else {
      GateTick(s, base, c, active, e, a, s');
    }
  }

  ghost predicate Exact(s: State, base: seq<TaskId>, c: nat) {
    Segment(s, base, c) && exists active, e :: Gate(s, c, active, e)
  }

  lemma ExactNext(s: State, base: seq<TaskId>, c: nat, a: Action, s': State)
    requires Exact(s, base, c) && GuardedNext(s, a, s')
    ensures Exact(s', base, c)
  {
    var active, e: nat :| Gate(s, c, active, e) == true;
    SegmentNext(s, base, c, active, e, a, s');
    var active', e' := GateNext(s, base, c, active, e, a, s');
  }

  lemma ExactStart(s: State, c: nat)
    requires UniqueIds(s.log) && At(s.log, s.processed, c) && c <= |s.log|
    ensures Exact(Started(s), s.handled, c)
  {
    var t := Started(s);
    var no: seq<Task> := [];
    assert s.log[c..c] == no && s.handled == s.handled + Ids(no[..0]);
    assert Gate(t, c, None, c);
  }

  lemma ExactReached(s: State, c: nat, t: State)
    requires UniqueIds(s.log) && At(s.log, s.processed, c) && c <= |s.log|
    requires Reaches(GuardedNext, Started(s), t)
    ensures Exact(t, s.handled, c)
  {
    ExactStart(s, c);
    var exact := (u: State) => Exact(u, s.handled, c);
    forall u, a, u' | exact(u) && GuardedNext(u, a, u') ensures exact(u') { ExactNext(u, s.handled, c, a, u'); }
    InvariantReached(GuardedNext, exact, Started(s), t);
  }

  // Exactly once between restarts: from a restart at log position c, as long as every
  // spawn is safe, whatever fails, the tasks sent so far are the log's from c on, none
  // missing and none repeated, and those handled are an initial part of them, each
  // handled once and in order.
  lemma ExactlyOnce(s: State, c: nat, t: State)
    requires UniqueIds(s.log) && At(s.log, s.processed, c) && c <= |s.log|
    requires Reaches(GuardedNext, Started(s), t)
    ensures c + |t.sent| <= |t.log| && t.sent == t.log[c..c + |t.sent|] && !Repeats(t.sent)
    ensures exists h :: 0 <= h <= |t.sent| && t.handled == s.handled + Ids(t.sent[..h])
  {
    ExactReached(s, c, t);
    SegmentMeans(t, s.handled, c);
  }

  lemma SegmentMeans(s: State, base: seq<TaskId>, c: nat)
    requires Segment(s, base, c)
    ensures c + |s.sent| <= |s.log| && s.sent == s.log[c..c + |s.sent|] && !Repeats(s.sent)
    ensures exists h :: 0 <= h <= |s.sent| && s.handled == base + Ids(s.sent[..h])
  {
    assert HandledOk(s.handled, base, s.sent, HandledCount(s.sent, Queue(s), s.downstream));
    forall i, j | 0 <= i < j < |s.sent| ensures s.sent[i] != s.sent[j] {
      assert s.sent[i] == s.log[c + i] && s.sent[j] == s.log[c + j];
    }
  }

  // Steps of one process in which nothing fails and no further request is spawned.
  ghost predicate FaultlessNext(s: State, a: Action, s': State) {
    Next(s, a, s') && !a.Restart? && !a.Fail? && !a.TickSpawn?
  }

  lemma FreshId(log: seq<Task>) returns (id: TaskId)
    ensures forall i :: 0 <= i < |log| ==> log[i].id != id
  {
    var n: nat := 0;
    for k := 0 to |log|
      invariant forall i :: 0 <= i < k ==> log[i].id.uuid < n
    {
      if log[k].id.uuid >= n { n := log[k].id.uuid + 1; }
    }
    id := TaskId(n);
  }

  // A request that waits at position e can be answered with the task there, and push it.
  lemma AnswerOne(s0: State, s: State, r: nat, e: nat) returns (t: State)
    requires Reaches(FaultlessNext, s0, s)
    requires r < |s.requests| && s.requests[r].Asked? && At(s.log, s.requests[r].after, e) && e < |s.log|
    ensures Reaches(FaultlessNext, s0, t) && t.log == s.log && t.sent == s.sent + [s.log[e]]
    ensures t.requests == s.requests[r := Sending([], s.log[e].id)]
  {
    var page := Sending([s.log[e]], s.log[e].id);
    assert s.log[e..e + 1] == [s.log[e]];
    var u := s.(requests := s.requests[r := page]);
    ReachesNext(FaultlessNext, s0, s, Respond(r, e, e + 1), u);
    t := PushOne(s0, u, r);
    assert [s.log[e]][1..] == [];
    assert t.requests == s.requests[r := Sending([], s.log[e].id)];
  }

  lemma PushOne(s0: State, s: State, r: nat) returns (t: State)
    requires Reaches(FaultlessNext, s0, s)
    requires r < |s.requests| && s.requests[r].Sending? && s.requests[r].rest != []
    ensures Reaches(FaultlessNext, s0, t) && t.log == s.log && t.sent == s.sent + [s.requests[r].rest[0]]
    ensures t.requests == s.requests[r := Sending(s.requests[r].rest[1..], s.requests[r].last)]
  {
    var task := s.requests[r].rest[0];
    t := s.(channel := s.channel + [task], sent := s.sent + [task],
            requests := s.requests[r := s.requests[r].(rest := s.requests[r].rest[1..])]);
    ReachesNext(FaultlessNext, s0, s, Push(r), t);
  }

  // A request waits at a position whose task was sent already.
  lemma AskedAgain(s0: State, s: State, r: nat, e: nat, i: nat) returns (t: State)
    requires Reaches(FaultlessNext, s0, s)
    requires r < |s.requests| && s.requests[r].Asked? && At(s.log, s.requests[r].after, e) && e < |s.log|
    requires i < |s.sent| && s.sent[i] == s.log[e]
    ensures Reaches(FaultlessNext, s0, t) && Repeats(t.sent)
  {
    t := AnswerOne(s0, s, r, e);
    assert t.sent[i] == t.sent[|s.sent|];
  }

  // Two requests wait at the same position; the log grows if it ends there.
  lemma AskedTwice(s0: State, s: State, r: nat, q: nat, e: nat) returns (t: State)
    requires Reaches(FaultlessNext, s0, s)
    requires r < q < |s.requests| && s.requests[r].Asked? && s.requests[q] == s.requests[r]
    requires At(s.log, s.requests[r].after, e) && e <= |s.log|
    ensures Reaches(FaultlessNext, s0, t) && Repeats(t.sent)
  {
    var u := s;
    if e == |s.log| {
      var id := FreshId(s.log);
      u := s.(log := s.log + [Task(id, 0)]);
      ReachesNext(FaultlessNext, s0, s, Append(Task(id, 0)), u);
    }
    var v := AnswerOne(s0, u, r, e);
    t := AskedAgain(s0, v, q, e, |s.sent|);
  }

  // Every unsafe spawn can make the process send a task again, with no further fault: a
  // request of the same position is still waiting, or has sent only part of its page, or
  // has failed after it had sent something.
  lemma UnsafeSpawnRepeats(s: State, c: nat, active: Option<nat>, e: nat, s': State) returns (t: State)
    requires SentOk(s.log, s.origin, c, s.sent) && Gate(s, c, active, e) && Next(s, TickSpawn, s') && !Safe(s)
    ensures Reaches(FaultlessNext, s', t) && Repeats(t.sent)
  {
    SpawnNotBlocked(s, c, active, e, s');
    SentEnd(s.log, c, s.sent, s.queried, e);
    ReachesSelf<State, Action>(FaultlessNext, s');
    if e < c + |s.sent| {
      assert s.sent[e - c] == s.log[e];
      t := AskedAgain(s', s', |s.requests|, e, e - c);
    } else {
      t := ActiveRepeats(s, active.value, e, s');
    }
  }

  // The unfinished request r stands where the new one asks.
  lemma ActiveRepeats(s: State, r: nat, e: nat, s': State) returns (t: State)
    requires Next(s, TickSpawn, s') && At(s.log, s.queried, e) && e <= |s.log| && UniqueIds(s.log)
    requires r < |s.requests| && ActiveOk(s.log, s.requests[r], e) && PositionOk(s.requests[r], e, e)
    ensures Reaches(FaultlessNext, s', t) && Repeats(t.sent)
  {
    var q := |s.requests|;
    ReachesSelf<State, Action>(FaultlessNext, s');
    assert s'.requests[r] == s.requests[r] && s'.requests[q] == Asked(s.queried);
    match s.requests[r]
    case Asked(after) =>
      SameCursor(s.log, after, s.queried, e);
      t := AskedTwice(s', s', r, q, e);
    case Sending(rest, _) =>
      assert s.log[e] == rest[0];
      var u := PushOne(s', s', r);
      t := AskedAgain(s', u, q, e, |s.sent|);
  }

  lemma SameCursor(log: seq<Task>, a: Option<TaskId>, b: Option<TaskId>, n: nat)
    requires At(log, a, n) && At(log, b, n)
    ensures a == b
  {
  }

  lemma FaultlessIsGuarded(s: State, t: State)
    requires Reaches(FaultlessNext, s, t)
    ensures Reaches(GuardedNext, s, t)
  {
    var run: seq<State>, acts: seq<Action> :| IsRun(FaultlessNext, run, acts) && run[0] == s && run[|acts|] == t;
    forall i | 0 <= i < |acts| ensures GuardedNext(run[i], acts[i], run[i + 1]) {
      assert FaultlessNext(run[i], acts[i], run[i + 1]);
    }
    assert IsRun(GuardedNext, run, acts);
  }

  // The exact condition. A process that has spawned only safely since its restart is about
  // to pass the gate: no task is ever sent twice from there on, all later spawns being
  // safe, if and only if this one is.
  lemma SpawnSafeIff(s0: State, c: nat, s: State, s': State)
    requires UniqueIds(s0.log) && At(s0.log, s0.processed, c) && c <= |s0.log|
    requires Reaches(GuardedNext, Started(s0), s) && Next(s, TickSpawn, s')
    ensures Safe(s) <==> forall t :: Reaches(GuardedNext, s', t) ==> !Repeats(t.sent)
  {
    if Safe(s) {
      ReachesNext(GuardedNext, Started(s0), s, TickSpawn, s');
      forall t | Reaches(GuardedNext, s', t) ensures !Repeats(t.sent) {
        ReachesTrans(GuardedNext, Started(s0), s', t);
        ExactlyOnce(s0, c, t);
      }
    } else {
      ExactReached(s0, c, s);
      var active, e: nat :| Gate(s, c, active, e);
      var t := UnsafeSpawnRepeats(s, c, active, e, s');
      FaultlessIsGuarded(s', t);
    }
  }

  // Unsafe spawns do happen: after every restart that leaves the gate open, the second
  // tick passes it while the first request is on its way.
  lemma SecondTickUnsafe(s0: State) returns (s: State, s': State)
    requires s0.processed.Some? || s0.queried.None?
    ensures Reaches(GuardedNext, Started(s0), s) && Next(s, TickSpawn, s') && !Safe(s)
  {
    var t := Started(s0);
    ReachesSelf<State, Action>(GuardedNext, t);
    var u := TickPasses(t, t);
    var v := u.(tick := NoTick, requests := [Asked(t.processed)]);
    ReachesNext(GuardedNext, t, u, TickSpawn, v);
    s := TickPasses(t, v);
    assert !s.requests[0].Done?;
    s' := s.(tick := NoTick, requests := s.requests + [Asked(t.processed)]);
  }

  lemma TickPasses(s0: State, s: State) returns (t: State)
    requires Reaches(GuardedNext, s0, s) && s.tick.NoTick? && s.channel == []
    ensures t == s.(tick := ReadProcessed(s.processed)) && Reaches(GuardedNext, s0, t)
  {
    var empty := s.(tick := SawEmpty);
    t := s.(tick := ReadProcessed(s.processed));
    ReachesNext(GuardedNext, s0, s, TickEmpty, empty);
    ReachesNext(GuardedNext, s0, empty, TickProcessed, t);
  }

  // Each request ends before the next tick begins: it either delivers its whole page
  // and its record of it, or fails before it has sent anything.
  ghost predicate SerialNext(s: State, a: Action, s': State) {
    && Next(s, a, s') && !a.Restart?
    && (a.TickEmpty? ==> Quiet(s.requests))
    && (a.Fail? && a.r < |s.requests| ==> !s.requests[a.r].Sending?)
  }

  ghost predicate Settled(s: State) {
    (s.tick.NoTick? || Quiet(s.requests)) && (Quiet(s.requests) ==> Safe(s))
  }

  lemma SerialIsGuarded(s: State, a: Action, s': State)
    requires Settled(s) && SerialNext(s, a, s')
    ensures GuardedNext(s, a, s')
  {
  }

  // When the active request ends, what it sent is recorded.
  lemma EndsRecorded(s: State, c: nat, active: Option<nat>, e: nat, a: Action, s': State)
    requires SentOk(s.log, s.origin, c, s.sent) && Gate(s, c, active, e) && SerialNext(s, a, s')
    requires (a.Respond? || a.SetQueried? || a.Fail?) && !s.requests[a.r].Done?
    requires Quiet(s'.requests)
    ensures Safe(s')
  {
    assert active == Some(a.r) && !Blocked(s);
    SentEnd(s'.log, c, s'.sent, s'.queried, c + |s.sent|);
  }

  lemma SettledNext(s: State, c: nat, active: Option<nat>, e: nat, a: Action, s': State)
    requires SentOk(s.log, s.origin, c, s.sent) && Gate(s, c, active, e) && Settled(s) && SerialNext(s, a, s')
    ensures Settled(s')
  {
    if (a.Respond? || a.SetQueried? || a.Fail?) && !s.requests[a.r].Done? {
      assert s.tick.NoTick?;
      if Quiet(s'.requests) { EndsRecorded(s, c, active, e, a, s'); }
    } else if a.Fail? {
      assert s'.requests == s.requests;
    } else if a.TickSpawn? {
      assert !s'.requests[|s.requests|].Done?;
    } else if a.Push? {
      assert !s'.requests[a.r].Done?;
    }
  }

  // So when no two requests overlap, all spawns are safe, and every task is sent once.
  lemma SerialIsExact(s: State, c: nat, t: State)
    requires UniqueIds(s.log) && At(s.log, s.processed, c) && c <= |s.log|
    requires Reaches(SerialNext, Started(s), t)
    ensures Reaches(GuardedNext, Started(s), t)
    ensures c + |t.sent| <= |t.log| && t.sent == t.log[c..c + |t.sent|]
  {
    var run: seq<State>, acts: seq<Action> :| IsRun(SerialNext, run, acts) && run[0] == Started(s) && run[|acts|] == t;
    var inv := (u: State) => Exact(u, s.handled, c) && Settled(u);
    forall u, a, u' | inv(u) && SerialNext(u, a, u') ensures inv(u') { SerialStep(u, s.handled, c, a, u'); }
    ExactStart(s, c);
    forall i | 0 <= i < |acts| ensures GuardedNext(run[i], acts[i], run[i + 1]) {
      Invariant(SerialNext, inv, run, acts, i);
      SerialIsGuarded(run[i], acts[i], run[i + 1]);
    }
    assert IsRun(GuardedNext, run, acts);
    ExactlyOnce(s, c, t);
  }

  lemma SerialStep(s: State, base: seq<TaskId>, c: nat, a: Action, s': State)
    requires Exact(s, base, c) && Settled(s) && SerialNext(s, a, s')
    ensures Exact(s', base, c) && Settled(s')
  {
    SerialIsGuarded(s, a, s');
    ExactNext(s, base, c, a, s');
    var active, e: nat :| Gate(s, c, active, e) == true;
    SettledNext(s, c, active, e, a, s');
  }
}

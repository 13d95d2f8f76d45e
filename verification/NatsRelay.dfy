// Task relay from the Amplifier API to a NATS stream. The stream is its own cursor:
// a subscriber peeks at the last stored message, fetches the page after it, sorts
// it and publishes one message at a time.
module NatsRelay {
  import opened Options
  import opened Runs
  import opened TaskLog

  datatype Phase =
    | Idle
    | Peeked(after: Option<TaskId>)
    | Publishing(batch: seq<Task>, sent: nat)

  // Messages whose publish failed may be on their way to the stream still.
  datatype State = State(log: seq<Task>, stream: seq<TaskId>, onTheWay: set<TaskId>, subs: seq<Phase>)

  datatype Action =
    | Append(task: Task)
    | Peek(p: nat)
    | Fetch(p: nat, start: nat, end: nat, batch: seq<Task>)
    | Store(p: nat)
    | Duplicate(p: nat)
    | Fail(p: nat)
    | Arrive(id: TaskId)
    | Vanish(id: TaskId)
    | Finish(p: nat)
    | Abandon(p: nat)

  function Last(stream: seq<TaskId>): Option<TaskId> {
    if stream == [] then None else Some(stream[|stream| - 1])
  }

  ghost predicate Sending(s: State, p: nat) {
    p < |s.subs| && s.subs[p].Publishing? && s.subs[p].sent < |s.subs[p].batch|
  }

  function Sent(s: State, p: nat): State
    requires p < |s.subs| && s.subs[p].Publishing?
  {
    s.(subs := s.subs[p := s.subs[p].(sent := s.subs[p].sent + 1)])
  }

  ghost predicate Next(s: State, a: Action, s': State) {
    match a
    // the API's log grows, and timestamps grow with it
    case Append(task) =>
      && (forall i :: 0 <= i < |s.log| ==> s.log[i].id != task.id && s.log[i].timestamp < task.timestamp)
      && s' == s.(log := s.log + [task])
    // peek_last: no message yet, or the id of the message with the last sequence number
    case Peek(p) =>
      p < |s.subs| && s.subs[p].Idle? && s' == s.(subs := s.subs[p := Peeked(Last(s.stream))])
    case Fetch(p, start, end, batch) =>
      && p < |s.subs| && s.subs[p].Peeked?
      && At(s.log, s.subs[p].after, start) && start <= end <= |s.log| && IsSortOf(batch, s.log[start..end])
      && s' == s.(subs := s.subs[p := Publishing(batch, 0)])
    // the next message of the batch is stored and acknowledged
    case Store(p) =>
      Sending(s, p) && s' == Sent(s, p).(stream := s.stream + [s.subs[p].batch[s.subs[p].sent].id])
    // the server recognises the message id, drops the message and acknowledges it
    case Duplicate(p) =>
      Sending(s, p) && s.subs[p].batch[s.subs[p].sent].id in s.stream && s' == Sent(s, p)
    // the publish returns an error, which ends the call; the message may arrive later
    case Fail(p) =>
      && Sending(s, p)
      && s' == s.(onTheWay := s.onTheWay + {s.subs[p].batch[s.subs[p].sent].id}, subs := s.subs[p := Idle])
    case Arrive(id) =>
      id in s.onTheWay && s' == s.(onTheWay := s.onTheWay - {id}, stream := s.stream + [id])
    case Vanish(id) => id in s.onTheWay && s' == s.(onTheWay := s.onTheWay - {id})
    case Finish(p) =>
      && p < |s.subs| && s.subs[p].Publishing? && s.subs[p].sent == |s.subs[p].batch|
      && s' == s.(subs := s.subs[p := Idle])
    // any other error or a crash
    case Abandon(p) => p < |s.subs| && s' == s.(subs := s.subs[p := Idle])
  }

  ghost predicate Init(s: State) {
    && UniqueIds(s.log) && StrictlyTimed(s.log) && s.stream == [] && s.onTheWay == {}
    && forall p :: 0 <= p < |s.subs| ==> s.subs[p] == Idle
  }

  // Task id comes from the log and all its predecessors are stored.
  ghost predicate Grounded(log: seq<Task>, stream: seq<TaskId>, id: TaskId) {
    exists k :: 0 <= k < |log| && log[k].id == id && PrefixIn(log, stream, k)
  }

  ghost predicate PhaseOk(s: State, phase: Phase) {
    match phase
    case Idle => true
    case Peeked(after) => after.Some? ==> after.value in s.stream
    case Publishing(batch, sent) =>
      && sent <= |batch|
      && exists start: nat :: Slice(s.log, start, batch) && PrefixIn(s.log, s.stream, start + sent)
  }

  ghost predicate Inv(s: State) {
    && UniqueIds(s.log) && StrictlyTimed(s.log)
    && (forall id :: id in s.stream || id in s.onTheWay ==> Grounded(s.log, s.stream, id))
    && forall p :: 0 <= p < |s.subs| ==> PhaseOk(s, s.subs[p])
  }

  lemma GroundedGrows(s: State, s': State, id: TaskId)
    requires Grounded(s.log, s.stream, id) && s.log <= s'.log && s.stream <= s'.stream
    ensures Grounded(s'.log, s'.stream, id)
  {
    var k: nat :| 0 <= k < |s.log| && s.log[k].id == id && PrefixIn(s.log, s.stream, k);
    assert s'.log[k].id == id && PrefixIn(s'.log, s'.stream, k);
  }

  lemma PhaseOkGrows(s: State, phase: Phase, s': State)
    requires PhaseOk(s, phase) && s.log <= s'.log && s.stream <= s'.stream
    ensures PhaseOk(s', phase)
  {
    if phase.Publishing? {
      var start: nat :| Slice(s.log, start, phase.batch) && PrefixIn(s.log, s.stream, start + phase.sent);
      assert Slice(s'.log, start, phase.batch) && PrefixIn(s'.log, s'.stream, start + phase.sent);
    }
  }

  // What a step owes: the log keeps its order, only the log and the stream grow, new
  // ids are grounded and at most subscriber p has a new phase.
  lemma InvGrows(s: State, s': State, p: nat, added: set<TaskId>)
    requires Inv(s) && UniqueIds(s'.log) && StrictlyTimed(s'.log) && s.log <= s'.log && s.stream <= s'.stream
    requires |s'.subs| == |s.subs| && forall q :: 0 <= q < |s.subs| && q != p ==> s'.subs[q] == s.subs[q]
    requires p < |s'.subs| ==> PhaseOk(s', s'.subs[p])
    requires forall id :: id in s'.stream || id in s'.onTheWay ==> id in s.stream || id in s.onTheWay || id in added
    requires forall id :: id in added ==> Grounded(s.log, s.stream, id)
    ensures Inv(s')
  {
    forall id | id in s'.stream || id in s'.onTheWay ensures Grounded(s'.log, s'.stream, id) {
      GroundedGrows(s, s', id);
    }
    forall q | 0 <= q < |s'.subs| ensures PhaseOk(s', s'.subs[q]) {
      if q != p { PhaseOkGrows(s, s.subs[q], s'); }
    }
  }

  lemma InvFetch(s: State, p: nat, start: nat, end: nat, batch: seq<Task>, s': State)
    requires Inv(s) && Next(s, Fetch(p, start, end, batch), s')
    ensures Inv(s')
  {
    var page := s.log[start..end];
    forall i, j | 0 <= i < j < |page| ensures page[i].timestamp < page[j].timestamp {
      assert page[i] == s.log[start + i] && page[j] == s.log[start + j];
    }
    SortRestores(batch, page);
    assert Slice(s.log, start, batch);
    PeekedPrefix(s, s.subs[p].after, start);
    InvGrows(s, s', p, {});
  }

  lemma PeekedPrefix(s: State, after: Option<TaskId>, start: nat)
    requires Inv(s) && PhaseOk(s, Peeked(after)) && At(s.log, after, start)
    ensures PrefixIn(s.log, s.stream, start)
  {
    if after.Some? {
      var k: nat :| 0 <= k < |s.log| && s.log[k].id == after.value && PrefixIn(s.log, s.stream, k);
      AtIsFunctional(s.log, after, k + 1, start);
    }
  }

  // The message that subscriber p sends next, and the room it leaves for it.
  lemma NextMessage(s: State, p: nat) returns (start: nat, id: TaskId)
    requires Inv(s) && Sending(s, p)
    ensures id == s.subs[p].batch[s.subs[p].sent].id && Grounded(s.log, s.stream, id)
    ensures Slice(s.log, start, s.subs[p].batch) && PrefixIn(s.log, s.stream, start + s.subs[p].sent)
    ensures start + s.subs[p].sent < |s.log| && s.log[start + s.subs[p].sent].id == id
  {
    assert PhaseOk(s, s.subs[p]);
    var batch, sent := s.subs[p].batch, s.subs[p].sent;
    start :| Slice(s.log, start, batch) && PrefixIn(s.log, s.stream, start + sent);
    id := batch[sent].id;
    assert s.log[start + sent] == batch[sent];
  }

  lemma InvSend(s: State, p: nat, a: Action, s': State)
    requires Inv(s) && a in {Store(p), Duplicate(p), Fail(p)} && Next(s, a, s')
    ensures Inv(s')
  {
    var start, id := NextMessage(s, p);
    if !a.Fail? {
      assert PrefixIn(s'.log, s'.stream, start + s'.subs[p].sent);
    }
    InvGrows(s, s', p, {id});
  }

  lemma InvNext(s: State, a: Action, s': State)
    requires Inv(s) && Next(s, a, s')
    ensures Inv(s')
  {
    match a
    case Append(task) => InvGrows(s, s', |s.subs|, {});
    case Peek(p) => InvGrows(s, s', p, {});
    case Fetch(p, start, end, batch) => InvFetch(s, p, start, end, batch, s');
    case Store(p) => InvSend(s, p, a, s');
    case Duplicate(p) => InvSend(s, p, a, s');
    case Fail(p) => InvSend(s, p, a, s');
    case Arrive(id) => InvGrows(s, s', |s.subs|, {});
    case Vanish(id) => InvGrows(s, s', |s.subs|, {});
    case Finish(p) => InvGrows(s, s', p, {});
    case Abandon(p) => InvGrows(s, s', p, {});
  }

  lemma EveryStepKeepsInv()
    ensures forall s, a, s' :: Inv(s) && Next(s, a, s') ==> Inv(s')
  {
    forall s, a, s' | Inv(s) && Next(s, a, s') ensures Inv(s') { InvNext(s, a, s'); }
  }

  // Safety over whole runs, for any number of subscribers: everything stored is a
  // task of the log, and a stored task's predecessors are all stored.
  lemma StreamIsDownwardClosed(run: seq<State>, acts: seq<Action>, i: nat)
    requires IsRun(Next, run, acts) && Init(run[0]) && i < |run|
    ensures forall id :: id in run[i].stream ==> exists k :: 0 <= k < |run[i].log| && run[i].log[k].id == id
    ensures forall j, k :: 0 <= j < k < |run[i].log| && run[i].log[k].id in run[i].stream
                           ==> run[i].log[j].id in run[i].stream
  {
    EveryStepKeepsInv();
    Invariant(Next, Inv, run, acts, i);
    var s := run[i];
    forall id | id in s.stream ensures exists k :: 0 <= k < |s.log| && s.log[k].id == id {
      assert Grounded(s.log, s.stream, id);
    }
    forall j, k | 0 <= j < k < |s.log| && s.log[k].id in s.stream ensures s.log[j].id in s.stream {
      PeekedPrefix(s, Some(s.log[k].id), k + 1);
    }
  }

  // One subscriber, and a failed publish has arrived or vanished before the next peek.
  ghost predicate IsSoleRun(run: seq<State>, acts: seq<Action>) {
    && IsRun(Next, run, acts) && |run[0].subs| == 1
    && forall i :: 0 <= i < |acts| && acts[i].Peek? ==> run[i].onTheWay == {}
  }

  // The stream holds exactly the first n tasks of the log, in order, and what the
  // subscriber is doing continues from there.
  ghost predicate Exact(s: State, n: nat) {
    && |s.subs| == 1 && UniqueIds(s.log) && StrictlyTimed(s.log)
    && n <= |s.log| && s.stream == Ids(s.log[..n])
    && (forall id :: id in s.onTheWay ==> n < |s.log| && id == s.log[n].id)
    && match s.subs[0]
       case Idle => true
       case Peeked(after) => s.onTheWay == {} && At(s.log, after, n)
       case Publishing(batch, sent) => s.onTheWay == {} && sent <= |batch| && sent <= n && Slice(s.log, n - sent, batch)
  }

  lemma IdsSnoc(log: seq<Task>, n: nat)
    requires n < |log|
    ensures Ids(log[..n + 1]) == Ids(log[..n]) + [log[n].id]
  {
  }

  lemma ExactFetch(s: State, n: nat, start: nat, end: nat, batch: seq<Task>)
    requires Exact(s, n) && s.subs[0].Peeked? && At(s.log, s.subs[0].after, start)
    requires start <= end <= |s.log| && IsSortOf(batch, s.log[start..end])
    ensures Slice(s.log, n, batch)
  {
    AtIsFunctional(s.log, s.subs[0].after, n, start);
    var page := s.log[start..end];
    forall i, j | 0 <= i < j < |page| ensures page[i].timestamp < page[j].timestamp {
      assert page[i] == s.log[start + i] && page[j] == s.log[start + j];
    }
    SortRestores(batch, page);
  }

  lemma ExactAppend(s: State, n: nat, task: Task, s': State)
    requires Exact(s, n) && Next(s, Append(task), s')
    ensures Exact(s', n)
  {
    assert s'.log[..n] == s.log[..n];
    if s.subs[0].Publishing? {
      var start := n - s.subs[0].sent;
      assert s'.log[start..start + |s.subs[0].batch|] == s.log[start..start + |s.subs[0].batch|];
    }
  }

  // What subscriber 0 sends next is the log's next task, which is not stored yet.
  lemma SendsNextTask(s: State, n: nat)
    requires Exact(s, n) && Sending(s, 0)
    ensures n < |s.log| && s.subs[0].batch[s.subs[0].sent].id == s.log[n].id
    ensures s.log[n].id !in s.stream
  {
    var batch, sent := s.subs[0].batch, s.subs[0].sent;
    assert batch[sent] == s.log[n - sent + sent];
  }

  lemma ExactStore(s: State, n: nat, s': State)
    requires Exact(s, n) && Next(s, Store(0), s')
    ensures Exact(s', n + 1)
  {
    SendsNextTask(s, n);
    IdsSnoc(s.log, n);
  }

  lemma ExactFail(s: State, n: nat, s': State)
    requires Exact(s, n) && Next(s, Fail(0), s')
    ensures Exact(s', n)
  {
    SendsNextTask(s, n);
  }

  lemma ExactArrive(s: State, n: nat, id: TaskId, s': State)
    requires Exact(s, n) && Next(s, Arrive(id), s')
    ensures Exact(s', n + 1)
  {
    IdsSnoc(s.log, n);
  }

  // Reading, giving up and finishing leave the stream alone.
  lemma ExactStill(s: State, n: nat, a: Action, s': State)
    requires Exact(s, n) && Next(s, a, s') && (a.Peek? ==> s.onTheWay == {})
    requires a.Peek? || a.Vanish? || a.Finish? || a.Abandon?
    ensures Exact(s', n)
  {
  }

  // The server never has a duplicate to recognise.
  lemma NoDuplicate(s: State, n: nat, a: Action, s': State)
    requires Exact(s, n) && Next(s, a, s')
    ensures !a.Duplicate?
  {
    if a.Duplicate? { SendsNextTask(s, n); }
  }

  lemma ExactNext(s: State, n: nat, a: Action, s': State) returns (n': nat)
    requires Exact(s, n) && Next(s, a, s') && (a.Peek? ==> s.onTheWay == {})
    ensures Exact(s', n') && !a.Duplicate?
  {
    n' := if a.Store? || a.Arrive? then n + 1 else n;
    NoDuplicate(s, n, a, s');
    if a.Append? {
      ExactAppend(s, n, a.task, s');
    } else if a.Fetch? {
      FetchesSlice(s, n, a, s');
    } else if a.Store? {
      ExactStore(s, n, s');
    } else if a.Fail? {
      ExactFail(s, n, s');
    } else if a.Arrive? {
      ExactArrive(s, n, a.id, s');
    } else {
      ExactStill(s, n, a, s');
    }
  }

  lemma FetchesSlice(s: State, n: nat, a: Action, s': State)
    requires Exact(s, n) && a.Fetch? && Next(s, a, s')
    ensures Exact(s', n)
  {
    ExactFetch(s, n, a.start, a.end, a.batch);
  }

  // With one subscriber the stream is a prefix of the log, with no gap, no repeat
  // and no help from the server's duplicate window.
  lemma {:induction false} SoleStreamIsPrefix(run: seq<State>, acts: seq<Action>, i: nat) returns (n: nat)
    requires IsSoleRun(run, acts) && Init(run[0]) && i < |run|
    ensures n <= |run[i].log| && run[i].stream == Ids(run[i].log[..n])
    ensures Exact(run[i], n)
    ensures i > 0 ==> !acts[i - 1].Duplicate?
  {
    if i == 0 {
      n := 0;
    } else {
      n := SoleStreamIsPrefix(run, acts, i - 1);
      n := ExactNext(run[i - 1], n, acts[i - 1], run[i]);
    }
  }
}

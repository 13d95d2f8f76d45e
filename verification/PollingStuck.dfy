// When the polling protocol stops: until its next restart, and for good.
module PollingStuck {
  import opened Options
  import opened Runs
  import opened TaskLog
  import opened PollingGate
  import opened PollingOnce

  ghost predicate SameProcessNext(s: State, a: Action, s': State) {
    Next(s, a, s') && !a.Restart?
  }

  predicate OnlyRecords(request: Request) {
    request.Done? || (request.Sending? && request.rest == [])
  }

  // Nothing is left to be handled: what is on its way can only write a record.
  predicate Idle(s: State) {
    && s.channel == [] && !s.downstream.Handling?
    && forall r :: 0 <= r < |s.requests| ==> OnlyRecords(s.requests[r])
  }

  // The queried record is this id, or a request is about to make it so.
  ghost predicate MayBeQueried(s: State, id: Option<TaskId>) {
    id == s.queried || exists r :: 0 <= r < |s.requests| && AboutToRecord(s.requests[r], id)
  }

  predicate AboutToRecord(request: Request, id: Option<TaskId>) {
    request.Sending? && request.rest == [] && Some(request.last) == id
  }

  // And no processed record that a tick has read or can come to read may meet it.
  ghost predicate Stalled(s: State) {
    && Idle(s) && !MayBeQueried(s, s.processed)
    && (s.downstream.Handled? ==> !MayBeQueried(s, Some(s.downstream.task.id)))
    && (s.tick.ReadProcessed? ==> !MayBeQueried(s, s.tick.processed))
  }

  lemma QueriedShrinks(s: State, s': State, id: Option<TaskId>)
    requires !MayBeQueried(s, id) && |s'.requests| == |s.requests|
    requires s'.queried == s.queried || MayBeQueried(s, s'.queried)
    requires forall r :: 0 <= r < |s.requests| ==> s'.requests[r] == s.requests[r] || s'.requests[r].Done?
    ensures !MayBeQueried(s', id)
  {
  }

  lemma RequestShrinks(s: State, r: nat, a: Action, s': State)
    requires Stalled(s) && r < |s.requests| && (a == SetQueried(r) || a == Fail(r)) && Next(s, a, s')
    ensures Stalled(s')
  {
    if a.SetQueried? { assert AboutToRecord(s.requests[r], s'.queried); }
    QueriedShrinks(s, s', s.processed);
    if s.downstream.Handled? { QueriedShrinks(s, s', Some(s.downstream.task.id)); }
    if s.tick.ReadProcessed? { QueriedShrinks(s, s', s.tick.processed); }
  }

  // Steps that leave both requests and the queried record alone.
  lemma QueriedSame(s: State, s': State)
    requires s'.requests == s.requests && s'.queried == s.queried
    ensures forall id :: MayBeQueried(s', id) <==> MayBeQueried(s, id)
  {
    forall id ensures MayBeQueried(s', id) <==> MayBeQueried(s, id) {
      if MayBeQueried(s, id) && id != s.queried {
        var r :| 0 <= r < |s.requests| && AboutToRecord(s.requests[r], id);
        assert AboutToRecord(s'.requests[r], id);
      }
      if MayBeQueried(s', id) && id != s'.queried {
        var r :| 0 <= r < |s'.requests| && AboutToRecord(s'.requests[r], id);
        assert AboutToRecord(s.requests[r], id);
      }
    }
  }

  lemma StalledNext(s: State, a: Action, s': State)
    requires Stalled(s) && SameProcessNext(s, a, s')
    ensures Stalled(s') && s'.handled == s.handled && s'.sent == s.sent
  {
    if a.SetQueried? || a.Fail? {
      RequestShrinks(s, a.r, a, s');
    } else {
      assert !a.TickSpawn?;
      StalledStill(s, a, s');
    }
  }

  lemma StalledStill(s: State, a: Action, s': State)
    requires Stalled(s) && SameProcessNext(s, a, s') && !a.SetQueried? && !a.Fail? && !a.TickSpawn?
    ensures Stalled(s') && s'.handled == s.handled && s'.sent == s.sent
  {
    assert a.Append? || a.TickEmpty? || a.TickProcessed? || a.TickSkip? || a.SetProcessed?;
    QueriedSame(s, s');
  }

  // Until its next restart a stalled process sends nothing and handles nothing.
  lemma StalledUntilRestart(s: State, t: State)
    requires Stalled(s) && Reaches(SameProcessNext, s, t)
    ensures Stalled(t) && t.sent == s.sent && t.handled == s.handled
  {
    var stalled := (u: State) => Stalled(u) && u.sent == s.sent && u.handled == s.handled;
    forall u, a, u' | stalled(u) && SameProcessNext(u, a, u') ensures stalled(u') { StalledNext(u, a, u'); }
    InvariantReached(SameProcessNext, stalled, s, t);
  }

  // From here on a task is handled, without a restart.
  ghost predicate GoesOn(s: State) {
    exists t :: Reaches(SameProcessNext, s, t) && |t.handled| > |s.handled|
  }

  lemma GoesOnNext(s: State, a: Action, s': State)
    requires SameProcessNext(s, a, s') && GoesOn(s') && s'.handled == s.handled
    ensures GoesOn(s)
  {
    var t :| Reaches(SameProcessNext, s', t) && |t.handled| > |s'.handled|;
    ReachesSelf<State, Action>(SameProcessNext, s);
    ReachesNext(SameProcessNext, s, s, a, s');
    ReachesTrans<State, Action>(SameProcessNext, s, s', t);
  }

  lemma HandlingGoesOn(s: State)
    requires s.downstream.Handling?
    ensures GoesOn(s)
  {
    var t := s.(downstream := Handled(s.downstream.task), handled := s.handled + [s.downstream.task.id]);
    ReachesSelf<State, Action>(SameProcessNext, s);
    ReachesNext(SameProcessNext, s, s, Handle, t);
  }

  lemma WaitingGoesOn(s: State)
    requires s.downstream.Waiting? && s.channel != []
    ensures GoesOn(s)
  {
    var t := s.(downstream := Handling(s.channel[0]), channel := s.channel[1..]);
    HandlingGoesOn(t);
    GoesOnNext(s, Pop, t);
  }

  lemma QueuedGoesOn(s: State)
    requires s.channel != []
    ensures GoesOn(s)
  {
    match s.downstream
    case Waiting => WaitingGoesOn(s);
    case Handling(_) => HandlingGoesOn(s);
    case Handled(task) =>
      var t := s.(downstream := Waiting, processed := Some(task.id));
      WaitingGoesOn(t);
      GoesOnNext(s, SetProcessed, t);
  }

  lemma SendingGoesOn(s: State, r: nat)
    requires r < |s.requests| && s.requests[r].Sending? && s.requests[r].rest != []
    ensures GoesOn(s)
  {
    var task := s.requests[r].rest[0];
    var t := s.(channel := s.channel + [task], sent := s.sent + [task],
                requests := s.requests[r := s.requests[r].(rest := s.requests[r].rest[1..])]);
    QueuedGoesOn(t);
    GoesOnNext(s, Push(r), t);
  }

  lemma AnswerGoesOn(s: State, r: nat, n: nat)
    requires r < |s.requests| && s.requests[r].Asked? && At(s.log, s.requests[r].after, n) && n < |s.log|
    ensures GoesOn(s)
  {
    var t := s.(requests := s.requests[r := Sending(s.log[n..n + 1], s.log[n].id)]);
    SendingGoesOn(t, r);
    GoesOnNext(s, Respond(r, n, n + 1), t);
  }

  // A waiting request goes on with the task after its cursor, or with the next to come.
  lemma AskedGoesOn(s: State, r: nat)
    requires r < |s.requests| && s.requests[r].Asked? && CursorOk(s, s.requests[r].after)
    ensures GoesOn(s)
  {
    var n: nat :| At(s.log, s.requests[r].after, n) && PrefixIn(s.log, s.handled, n);
    if n < |s.log| {
      AnswerGoesOn(s, r, n);
    } else {
      var id := FreshId(s.log);
      var t := s.(log := s.log + [Task(id, 0)]);
      AnswerGoesOn(t, r, n);
      GoesOnNext(s, Append(Task(id, 0)), t);
    }
  }

  lemma SpawnGoesOn(s: State)
    requires s.tick.ReadProcessed? && s.tick.processed == s.queried && CursorOk(s, s.queried)
    ensures GoesOn(s)
  {
    var t := s.(tick := NoTick, requests := s.requests + [Asked(s.tick.processed)]);
    assert t.log == s.log && t.handled == s.handled;
    CursorGrows(s, t, s.queried);
    AskedGoesOn(t, |s.requests|);
    GoesOnNext(s, TickSpawn, t);
  }

  // An open gate lets a tick through.
  lemma OpenGoesOn(s: State)
    requires Inv(s) && s.channel == [] && s.processed == s.queried
    ensures GoesOn(s)
  {
    var skipped, empty, read := s.(tick := NoTick), s.(tick := SawEmpty), s.(tick := ReadProcessed(s.processed));
    CursorGrows(s, read, s.processed);
    SpawnGoesOn(read);
    GoesOnNext(empty, TickProcessed, read);
    GoesOnNext(skipped, TickEmpty, empty);
    GoesOnNext(s, TickSkip, skipped);
  }

  // A request that is about to record this id records it.
  lemma RecordFirst(s: State, id: Option<TaskId>) returns (t: State)
    requires Inv(s) && MayBeQueried(s, id)
    ensures Inv(t) && t.queried == id && (GoesOn(t) ==> GoesOn(s))
    ensures t.processed == s.processed && t.tick == s.tick && t.channel == s.channel
  {
    t := s;
    if id != s.queried {
      var r: nat :| r < |s.requests| && AboutToRecord(s.requests[r], id);
      t := s.(queried := id, requests := s.requests[r := Done]);
      InvNext(s, SetQueried(r), t);
      if GoesOn(t) { GoesOnNext(s, SetQueried(r), t); }
    }
  }

  lemma ProcessedGoesOn(s: State)
    requires Inv(s) && s.channel == [] && MayBeQueried(s, s.processed)
    ensures GoesOn(s)
  {
    var t := RecordFirst(s, s.processed);
    OpenGoesOn(t);
  }

  lemma HandledGoesOn(s: State)
    requires Inv(s) && s.channel == [] && s.downstream.Handled? && MayBeQueried(s, Some(s.downstream.task.id))
    ensures GoesOn(s)
  {
    var t := s.(downstream := Waiting, processed := Some(s.downstream.task.id));
    InvNext(s, SetProcessed, t);
    QueriedSame(s, t);
    ProcessedGoesOn(t);
    GoesOnNext(s, SetProcessed, t);
  }

  lemma ReadGoesOn(s: State)
    requires Inv(s) && s.tick.ReadProcessed? && MayBeQueried(s, s.tick.processed)
    ensures GoesOn(s)
  {
    var t := RecordFirst(s, s.tick.processed);
    SpawnGoesOn(t);
  }

  lemma BusyGoesOn(s: State)
    requires Inv(s) && !Idle(s)
    ensures GoesOn(s)
  {
    if s.channel != [] {
      QueuedGoesOn(s);
    } else if s.downstream.Handling? {
      HandlingGoesOn(s);
    } else {
      var r: nat :| r < |s.requests| && !OnlyRecords(s.requests[r]);
      assert RequestOk(s, s.requests[r]);
      if s.requests[r].Asked? { AskedGoesOn(s, r); } else { SendingGoesOn(s, r); }
    }
  }

  lemma NotStalledGoesOn(s: State)
    requires Inv(s) && !Stalled(s)
    ensures GoesOn(s)
  {
    if !Idle(s) {
      BusyGoesOn(s);
    } else if MayBeQueried(s, s.processed) {
      ProcessedGoesOn(s);
    } else if s.downstream.Handled? && MayBeQueried(s, Some(s.downstream.task.id)) {
      HandledGoesOn(s);
    } else {
      ReadGoesOn(s);
    }
  }

  lemma ReachedInv(s0: State, s: State)
    requires Init(s0) && Reaches(Next, s0, s)
    ensures Inv(s)
  {
    InitKeepsInv(s0);
    EveryStepKeepsInv();
    InvariantReached(Next, Inv, s0, s);
  }

  // The exact condition for a process to have stopped, in every state that can be reached:
  // nothing more is handled before the next restart, whatever happens, if and only if it
  // is stalled.
  lemma StalledIff(s0: State, s: State)
    requires Init(s0) && Reaches(Next, s0, s)
    ensures (forall t :: Reaches(SameProcessNext, s, t) ==> t.handled == s.handled) <==> Stalled(s)
  {
    if Stalled(s) {
      forall t | Reaches(SameProcessNext, s, t) ensures t.handled == s.handled { StalledUntilRestart(s, t); }
    } else {
      ReachedInv(s0, s);
      NotStalledGoesOn(s);
    }
  }

  // With nothing on its way at all, that is for the two records to differ.
  lemma QuietStalledIff(s0: State, s: State)
    requires Init(s0) && Reaches(Next, s0, s)
    requires s.channel == [] && s.downstream.Waiting? && Quiet(s.requests)
    requires s.tick.ReadProcessed? ==> s.tick.processed == s.processed
    ensures (forall t :: Reaches(SameProcessNext, s, t) ==> t.handled == s.handled) <==> s.processed != s.queried
  {
    StalledIff(s0, s);
    forall r | 0 <= r < |s.requests| ensures s.requests[r].Done? {}
  }

  // Nothing was ever processed, something was queried, and nothing is on its way.
  predicate Closed(s: State) {
    && s.processed == None && s.queried.Some?
    && s.channel == [] && s.downstream.Waiting? && Quiet(s.requests)
  }

  // What every run keeps, besides the protocol's invariant: no tick has read a processed
  // record before there was one; what was sent is processed or still queued; and a
  // request that has pushed its whole page has sent something.
  ghost predicate Traces(s: State) {
    && (s.processed == None && s.tick.ReadProcessed? ==> s.tick.processed == None)
    && (s.sent != [] ==> s.processed.Some? || Queue(s) != [])
    && forall r :: 0 <= r < |s.requests| && s.requests[r].Sending? && s.requests[r].rest == [] ==> s.sent != []
  }

  lemma TracesNext(s: State, a: Action, s': State)
    requires Traces(s) && Next(s, a, s')
    ensures Traces(s')
  {
  }

  lemma ReachedTraces(s0: State, s: State)
    requires Init(s0) && Reaches(Next, s0, s)
    ensures Inv(s) && Traces(s)
  {
    ReachedInv(s0, s);
    forall u, a, u' | Traces(u) && Next(u, a, u') ensures Traces(u') { TracesNext(u, a, u'); }
    InvariantReached(Next, Traces, s0, s);
  }

  // Not even a restart opens it.
  lemma ClosedNext(s: State, a: Action, s': State)
    requires Closed(s) && Traces(s) && Next(s, a, s')
    ensures Closed(s') && s'.handled == s.handled
  {
    if a.Fail? { assert s'.requests == s.requests; }
  }

  lemma ClosedForGood(s: State, t: State)
    requires Closed(s) && Traces(s) && Reaches(Next, s, t)
    ensures Closed(t) && t.handled == s.handled
  {
    var closed := (u: State) => Closed(u) && Traces(u) && u.handled == s.handled;
    forall u, a, u' | closed(u) && Next(u, a, u') ensures closed(u') {
      ClosedNext(u, a, u');
      TracesNext(u, a, u');
    }
    InvariantReached(Next, closed, s, t);
  }

  lemma SameProcessReaches(s: State, t: State)
    requires Reaches(SameProcessNext, s, t)
    ensures Reaches(Next, s, t)
  {
    var run: seq<State>, acts: seq<Action> :| IsRun(SameProcessNext, run, acts) && run[0] == s && run[|acts|] == t;
    forall i | 0 <= i < |acts| ensures Next(run[i], acts[i], run[i + 1]) {
      assert SameProcessNext(run[i], acts[i], run[i + 1]);
    }
    assert IsRun(Next, run, acts);
  }

  // A restart helps if there is a processed record to start from, or nothing was queried.
  lemma RestartGoesOn(s: State)
    requires Inv(s) && (s.processed.Some? || s.queried.None?)
    ensures exists t :: Reaches(Next, s, t) && t.handled != s.handled
  {
    var u := Started(s);
    InvNext(s, Restart, u);
    OpenGoesOn(u);
    var t :| Reaches(SameProcessNext, u, t) && |t.handled| > |u.handled|;
    SameProcessReaches(u, t);
    ReachesSelf<State, Action>(Next, s);
    ReachesNext(Next, s, s, Restart, u);
    ReachesTrans<State, Action>(Next, s, u, t);
  }

  lemma StaysOpen(s: State)
    requires Inv(s) && Traces(s) && !Closed(s)
    ensures exists t :: Reaches(Next, s, t) && t.handled != s.handled
  {
    if s.processed.Some? || s.queried.None? {
      RestartGoesOn(s);
    } else if s.downstream.Handled? {
      var u := s.(downstream := Waiting, processed := Some(s.downstream.task.id));
      InvNext(s, SetProcessed, u);
      RestartGoesOn(u);
      var t :| Reaches(Next, u, t) && t.handled != u.handled;
      ReachesSelf<State, Action>(Next, s);
      ReachesNext(Next, s, s, SetProcessed, u);
      ReachesTrans<State, Action>(Next, s, u, t);
    } else {
      UnsentIsBusy(s);
      BusyGoesOn(s);
      var t :| Reaches(SameProcessNext, s, t) && |t.handled| > |s.handled|;
      SameProcessReaches(s, t);
    }
  }

  lemma UnsentIsBusy(s: State)
    requires Traces(s) && !Closed(s) && s.processed == None && s.queried.Some? && !s.downstream.Handled?
    ensures !Idle(s)
  {
    if s.channel == [] && s.downstream.Waiting? {
      var r: nat :| r < |s.requests| && !s.requests[r].Done?;
      assert !OnlyRecords(s.requests[r]);
    }
  }

  // The exact condition for the gate to have closed for good, in every state that can be
  // reached: no task is ever handled again, however often the process restarts, if and
  // only if nothing was ever processed, something was queried, and nothing is on its way.
  lemma ClosedForGoodIff(s0: State, s: State)
    requires Init(s0) && Reaches(Next, s0, s)
    ensures (forall t :: Reaches(Next, s, t) ==> t.handled == s.handled) <==>
      && s.processed == None && s.queried.Some?
      && s.channel == [] && s.downstream.Waiting? && Quiet(s.requests)
  {
    ReachedTraces(s0, s);
    if Closed(s) {
      forall t | Reaches(Next, s, t) ensures t.handled == s.handled { ClosedForGood(s, t); }
    } else {
      StaysOpen(s);
    }
  }

  // So a start never leads to another task exactly if a queried record has survived
  // without a processed one.
  lemma StartClosedIff(s0: State, s: State)
    requires Init(s0) && Reaches(Next, s0, s)
    ensures (forall t :: Reaches(Next, Started(s), t) ==> t.handled == s.handled) <==>
      s.processed == None && s.queried.Some?
  {
    ReachesNext(Next, s0, s, Restart, Started(s));
    ClosedForGoodIff(s0, Started(s));
  }

  function Fresh(t: Task): State {
    State([t], None, None, NoTick, [], [], Waiting, [], [], None)
  }

  // It comes to that if the process dies after it has recorded its first batch as queried
  // and before the first task of that is processed: the batch is lost.
  lemma FirstBatchLost(t: Task) returns (s: State)
    ensures Init(Fresh(t)) && Reaches(Next, Fresh(t), s)
    ensures Closed(s) && s.log == [t] && s.handled == []
  {
    var s0 := Fresh(t);
    ReachesSelf<State, Action>(Next, s0);
    var s1 := s0.(tick := SawEmpty);
    ReachesNext(Next, s0, s0, TickEmpty, s1);
    var s2 := s0.(tick := ReadProcessed(None));
    ReachesNext(Next, s0, s1, TickProcessed, s2);
    var s3 := s0.(requests := [Asked(None)]);
    assert s2.requests + [Asked(None)] == [Asked(None)];
    ReachesNext(Next, s0, s2, TickSpawn, s3);
    var s4 := s0.(requests := [Sending([t], t.id)]);
    assert [t][0..1] == [t];
    ReachesNext(Next, s0, s3, Respond(0, 0, 1), s4);
    var s5 := s0.(requests := [Sending([], t.id)], channel := [t], sent := [t]);
    assert [t][1..] == [];
    ReachesNext(Next, s0, s4, Push(0), s5);
    var s6 := s5.(requests := [Done], queried := Some(t.id));
    ReachesNext(Next, s0, s5, SetQueried(0), s6);
    s := Started(s6);
    ReachesNext(Next, s0, s6, Restart, s);
  }

  // A process that has handled everything it was given stalls when one write of the
  // queried record fails: no crash, and a processed record is there for a restart.
  lemma OneFailedRecordStalls(x: Task) returns (s: State)
    ensures Init(Fresh(x)) && Reaches(SameProcessNext, Fresh(x), s)
    ensures Stalled(s) && s.processed == Some(x.id) && s.queried == None && s.handled == [x.id]
  {
    var s0 := Fresh(x);
    ReachesSelf<State, Action>(SameProcessNext, s0);
    var s1 := s0.(tick := SawEmpty);
    ReachesNext(SameProcessNext, s0, s0, TickEmpty, s1);
    var s2 := s0.(tick := ReadProcessed(None));
    ReachesNext(SameProcessNext, s0, s1, TickProcessed, s2);
    var s3 := s0.(requests := [Asked(None)]);
    assert s2.requests + [Asked(None)] == [Asked(None)];
    ReachesNext(SameProcessNext, s0, s2, TickSpawn, s3);
    var s4 := s0.(requests := [Sending([x], x.id)]);
    assert [x][0..1] == [x];
    ReachesNext(SameProcessNext, s0, s3, Respond(0, 0, 1), s4);
    var s5 := s0.(requests := [Sending([], x.id)], channel := [x], sent := [x]);
    assert [x][1..] == [];
    ReachesNext(SameProcessNext, s0, s4, Push(0), s5);
    var s6 := s5.(requests := [Done]);
    ReachesNext(SameProcessNext, s0, s5, Fail(0), s6);
    var s7 := s6.(downstream := Handling(x), channel := []);
    ReachesNext(SameProcessNext, s0, s6, Pop, s7);
    var s8 := s7.(downstream := Handled(x), handled := [x.id]);
    assert s7.handled + [x.id] == [x.id];
    ReachesNext(SameProcessNext, s0, s7, Handle, s8);
    s := s8.(downstream := Waiting, processed := Some(x.id));
    ReachesNext(SameProcessNext, s0, s8, SetProcessed, s);
  }
}

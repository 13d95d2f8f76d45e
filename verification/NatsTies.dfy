// What the NATS relay owes to strictly increasing timestamps.
module NatsTies {
  import opened Options
  import opened Runs
  import opened TaskLog
  import opened NatsRelay
  import opened NatsPublisher

  // This id is that of a task behind position k.
  ghost predicate Beyond(log: seq<Task>, k: nat, id: TaskId) {
    exists j: nat :: k < j < |log| && log[j].id == id
  }

  ghost predicate PhaseBeyond(log: seq<Task>, k: nat, phase: Phase) {
    match phase
    case Idle => true
    case Peeked(after) => after.Some? && Beyond(log, k, after.value)
    case Publishing(batch, _) => forall i :: 0 <= i < |batch| ==> Beyond(log, k, batch[i].id)
  }

  // A later task is stored and task k is not; the cursor and everything that is on its way
  // are behind task k.
  ghost predicate Skipped(s: State, k: nat) {
    && k < |s.log| && UniqueIds(s.log) && s.log[k].id !in s.stream
    && Last(s.stream).Some? && Beyond(s.log, k, Last(s.stream).value)
    && (forall id :: id in s.onTheWay ==> Beyond(s.log, k, id))
    && forall p :: 0 <= p < |s.subs| ==> PhaseBeyond(s.log, k, s.subs[p])
  }

  lemma BeyondGrows(log: seq<Task>, log': seq<Task>, k: nat, id: TaskId)
    requires Beyond(log, k, id) && log <= log'
    ensures Beyond(log', k, id)
  {
    var j: nat :| k < j < |log| && log[j].id == id;
    assert log'[j].id == id;
  }

  lemma BeyondIsOther(log: seq<Task>, k: nat, id: TaskId)
    requires UniqueIds(log) && k < |log| && Beyond(log, k, id)
    ensures id != log[k].id
  {
  }

  lemma PageBeyond(log: seq<Task>, k: nat, after: TaskId, start: nat, end: nat, batch: seq<Task>)
    requires UniqueIds(log) && Beyond(log, k, after) && At(log, Some(after), start)
    requires start <= end <= |log| && IsSortOf(batch, log[start..end])
    ensures PhaseBeyond(log, k, Publishing(batch, 0))
  {
    var j: nat :| k < j < |log| && log[j].id == after;
    SamePages(batch, log[start..end]);
    forall i | 0 <= i < |batch| ensures Beyond(log, k, batch[i].id) {
      var m :| 0 <= m < end - start && log[start..end][m] == batch[i];
      assert log[start + m].id == batch[i].id;
    }
  }

  lemma AppendSkips(s: State, k: nat, task: Task, s': State)
    requires Skipped(s, k) && Next(s, Append(task), s')
    ensures Skipped(s', k)
  {
    BeyondGrows(s.log, s'.log, k, Last(s.stream).value);
    forall id | id in s'.onTheWay ensures Beyond(s'.log, k, id) { BeyondGrows(s.log, s'.log, k, id); }
    forall p | 0 <= p < |s'.subs| ensures PhaseBeyond(s'.log, k, s'.subs[p]) {
      assert PhaseBeyond(s.log, k, s.subs[p]);
      match s.subs[p]
      case Idle =>
      case Peeked(after) => BeyondGrows(s.log, s'.log, k, after.value);
      case Publishing(batch, _) =>
        forall i | 0 <= i < |batch| ensures Beyond(s'.log, k, batch[i].id) {
          BeyondGrows(s.log, s'.log, k, batch[i].id);
        }
    }
  }

  // A step of subscriber p, or of a message on its way, that stores at most one id.
  lemma StepSkips(s: State, k: nat, p: nat, phase: Phase, extra: seq<TaskId>, onTheWay: set<TaskId>, s': State)
    requires Skipped(s, k) && (p < |s.subs| ==> PhaseBeyond(s.log, k, phase))
    requires |extra| <= 1 && forall id :: id in extra ==> Beyond(s.log, k, id)
    requires forall id :: id in onTheWay ==> Beyond(s.log, k, id)
    requires s' == s.(stream := s.stream + extra, onTheWay := onTheWay,
                      subs := if p < |s.subs| then s.subs[p := phase] else s.subs)
    ensures Skipped(s', k)
  {
    if extra == [] {
      assert s'.stream == s.stream;
    } else {
      BeyondIsOther(s.log, k, extra[0]);
    }
  }

  lemma SkippedNext(s: State, k: nat, a: Action, s': State)
    requires Skipped(s, k) && Next(s, a, s')
    ensures Skipped(s', k)
  {
    if a.Append? {
      AppendSkips(s, k, a.task, s');
    } else if a.Arrive? {
      StepSkips(s, k, |s.subs|, Idle, [a.id], s'.onTheWay, s');
    } else if a.Vanish? {
      assert s.stream + [] == s.stream;
      StepSkips(s, k, |s.subs|, Idle, [], s'.onTheWay, s');
    } else {
      assert PhaseBeyond(s.log, k, s.subs[a.p]);
      SubscriberSkips(s, k, a, s');
    }
  }

  lemma SubscriberSkips(s: State, k: nat, a: Action, s': State)
    requires Skipped(s, k) && Next(s, a, s') && !a.Append? && !a.Arrive? && !a.Vanish?
    ensures Skipped(s', k)
  {
    assert PhaseBeyond(s.log, k, s.subs[a.p]);
    if a.Fetch? { PageBeyond(s.log, k, s.subs[a.p].after.value, a.start, a.end, a.batch); }
    var extra := if a.Store? then [s.subs[a.p].batch[s.subs[a.p].sent].id] else [];
    assert s.stream + [] == s.stream;
    StepSkips(s, k, a.p, s'.subs[a.p], extra, s'.onTheWay, s');
  }

  // A task that was skipped is never stored, whatever happens, with any number of
  // subscribers: the cursor stays behind it.
  lemma SkippedForGood(s: State, k: nat, t: State)
    requires Skipped(s, k) && Reaches(Next, s, t)
    ensures Skipped(t, k) && s.log <= t.log && s.log[k].id !in t.stream
  {
    var skipped := (u: State) => Skipped(u, k) && s.log <= u.log;
    forall u, a, u' | skipped(u) && Next(u, a, u') ensures skipped(u') { SkippedNext(u, k, a, u'); }
    InvariantReached(Next, skipped, s, t);
  }

  // The relay before its first call, over a given log.
  function Unstarted(log: seq<Task>): State {
    State(log, [], {}, [Idle])
  }

  function AllStored(n: nat): seq<Fate> {
    seq(n, _ => Stored)
  }

  lemma {:induction false} AddedAll(batch: seq<Task>)
    ensures Added(batch, AllStored(|batch|)) == Ids(batch)
  {
    if batch != [] {
      AddedAll(batch[1..]);
      assert AllStored(|batch|)[1..] == AllStored(|batch| - 1);
      assert Ids(batch) == [batch[0].id] + Ids(batch[1..]);
    }
  }

  lemma TimedSnoc(log: seq<Task>, n: nat)
    requires 0 < n < |log| && StrictlyTimed(log[..n]) && log[n - 1].timestamp < log[n].timestamp
    ensures StrictlyTimed(log[..n + 1])
  {
    var front := log[..n];
    assert log[..n + 1] == front + [log[n]];
    forall a | 0 <= a < n ensures front[a].timestamp < log[n].timestamp {
      if a < n - 1 { assert front[a].timestamp < front[n - 1].timestamp; }
    }
  }

  // The first place where timestamps do not increase.
  lemma FirstTie(log: seq<Task>) returns (i: nat)
    requires !StrictlyTimed(log)
    ensures i + 1 < |log| && StrictlyTimed(log[..i + 1]) && log[i + 1].timestamp <= log[i].timestamp
  {
    i := 0;
    while i + 1 < |log| && log[i].timestamp < log[i + 1].timestamp
      invariant i < |log| && StrictlyTimed(log[..i + 1])
    {
      TimedSnoc(log, i + 1);
      i := i + 1;
    }
    assert log[..|log|] == log;
  }

  // One call publishes the tasks before the tie.
  lemma PublishBefore(log: seq<Task>, i: nat)
    requires i < |log| && Sorted(log[..i])
    ensures Reaches(Next, Unstarted(log), Unstarted(log).(stream := Ids(log[..i])))
  {
    var before := log[..i];
    AddedAll(before);
    assert log[0..i] == before && [] + Ids(before) == Ids(before);
    SubscribeSteps(Unstarted(log), 0, i, Services(false, Some(before), before, AllStored(i)));
  }

  // The next one stores the later of the two tasks and then fails.
  lemma StoreLater(log: seq<Task>, i: nat)
    requires i + 1 < |log| && log[i + 1].timestamp <= log[i].timestamp
    ensures Reaches(Next, Unstarted(log).(stream := Ids(log[..i])),
                    Unstarted(log).(stream := Ids(log[..i]) + [log[i + 1].id]))
  {
    SecondPage(log, i);
    var page, sorted, fates := log[i..i + 2], [log[i + 1], log[i]], [Stored, Lost];
    assert sorted[1..] == [log[i]] && fates[1..] == [Lost];
    assert Added([log[i]], [Lost]) == [];
    assert Added(sorted, fates) == [log[i + 1].id];
    SubscribeSteps(Unstarted(log).(stream := Ids(log[..i])), i, i + 2, Services(false, Some(page), sorted, fates));
  }

  lemma TieSkips(log: seq<Task>, i: nat) returns (s: State)
    requires UniqueIds(log) && i + 1 < |log| && StrictlyTimed(log[..i + 1]) && log[i + 1].timestamp <= log[i].timestamp
    ensures Reaches(Next, Unstarted(log), s) && Skipped(s, i)
  {
    assert log[..i] == log[..i + 1][..i];
    PublishBefore(log, i);
    StoreLater(log, i);
    s := Unstarted(log).(stream := Ids(log[..i]) + [log[i + 1].id]);
    ReachesTrans<State, Action>(Next, Unstarted(log), Unstarted(log).(stream := Ids(log[..i])), s);
    assert Beyond(log, i, log[i + 1].id);
  }

  lemma SecondPage(log: seq<Task>, i: nat)
    requires i + 1 < |log| && log[i + 1].timestamp <= log[i].timestamp
    ensures IsPage(log, i, i + 2, log[i..i + 2]) && IsSortOf([log[i + 1], log[i]], log[i..i + 2])
    ensures At(log, Last(Ids(log[..i])), i)
  {
    assert log[i..i + 2] == [log[i], log[i + 1]];
  }

  lemma InvSkipsNothing(s: State, k: nat)
    requires Inv(s)
    ensures !Skipped(s, k)
  {
    if Last(s.stream).Some? && Beyond(s.log, k, Last(s.stream).value) {
      var id := Last(s.stream).value;
      var j: nat :| k < j < |s.log| && s.log[j].id == id;
      PeekedPrefix(s, Some(id), j + 1);
    }
  }

  lemma NothingSkipped(log: seq<Task>, s: State, k: nat)
    requires UniqueIds(log) && StrictlyTimed(log) && Reaches(Next, Unstarted(log), s)
    ensures !Skipped(s, k)
  {
    NatsRelay.EveryStepKeepsInv();
    InvariantReached(Next, Inv, Unstarted(log), s);
    InvSkipsNothing(s, k);
  }

  // The exact condition on a log: some run of one subscriber skips a task for good if and
  // only if the log's timestamps do not strictly increase.
  lemma SkipsIff(log: seq<Task>)
    requires UniqueIds(log)
    ensures (exists s, k :: Reaches(Next, Unstarted(log), s) && Skipped(s, k)) <==> !StrictlyTimed(log)
  {
    if StrictlyTimed(log) {
      forall s, k | Reaches(Next, Unstarted(log), s) ensures !Skipped(s, k) { NothingSkipped(log, s, k); }
    } else {
      var i := FirstTie(log);
      var s := TieSkips(log, i);
    }
  }
}

// Task relay from the Amplifier API to Pub/Sub: any number of subscribers peek at a
// Redis cursor, fetch the page after it, publish the page in bulk and then move the
// cursor. The step system interleaves them freely, with failures at every step.
module GcpRelay {
  import opened Options
  import opened Runs
  import opened TaskLog

  // What one subscriber is doing between two of its awaits.
  datatype Phase =
    | Idle
    | Peeked(after: Option<TaskId>)
    | Publishing(batch: seq<Task>, landed: set<nat>)
    | Confirmed(last: TaskId)

  datatype State = State(log: seq<Task>, topic: seq<TaskId>, cursor: Option<TaskId>, subs: seq<Phase>)

  datatype Action =
    | Append(task: Task)
    | Peek(p: nat)
    | Fetch(p: nat, start: nat, end: nat, batch: seq<Task>)
    | Land(p: nat, k: nat)
    | Stray(id: TaskId)
    | Confirm(p: nat)
    | Upsert(p: nat)
    | Abandon(p: nat)

  ghost predicate Next(s: State, a: Action, s': State) {
    match a
    // the API's log grows
    case Append(task) =>
      (forall i :: 0 <= i < |s.log| ==> s.log[i].id != task.id) && s' == s.(log := s.log + [task])
    // peek_last reads the cursor and releases the publisher's lock
    case Peek(p) =>
      p < |s.subs| && s.subs[p].Idle? && s' == s.(subs := s.subs[p := Peeked(s.cursor)])
    // a non-empty page comes back and is sorted; publish_bulk hands it to its workers
    case Fetch(p, start, end, batch) =>
      && p < |s.subs| && s.subs[p].Peeked?
      && At(s.log, s.subs[p].after, start) && IsPage(s.log, start, end, batch) && Sorted(batch) && batch != []
      && s' == s.(subs := s.subs[p := Publishing(batch, {})])
    // one message of the batch reaches the topic, in any order
    case Land(p, k) =>
      && p < |s.subs| && s.subs[p].Publishing? && k < |s.subs[p].batch|
      && s' == s.(topic := s.topic + [s.subs[p].batch[k].id],
                  subs := s.subs[p := s.subs[p].(landed := s.subs[p].landed + {k})])
    // a message of an abandoned batch reaches the topic late
    case Stray(id) => s' == s.(topic := s.topic + [id])
    // every handle of the batch has returned Ok
    case Confirm(p) =>
      && p < |s.subs| && s.subs[p].Publishing? && s.subs[p].batch != []
      && (forall k :: 0 <= k < |s.subs[p].batch| ==> k in s.subs[p].landed)
      && s' == s.(subs := s.subs[p := Confirmed(s.subs[p].batch[|s.subs[p].batch| - 1].id)])
    // the cursor write takes effect, whether or not it is reported as an error
    case Upsert(p) =>
      && p < |s.subs| && s.subs[p].Confirmed?
      && s' == s.(cursor := Some(s.subs[p].last), subs := s.subs[p := Idle])
    // an error, an empty page, a write without effect, or a crash
    case Abandon(p) => p < |s.subs| && s' == s.(subs := s.subs[p := Idle])
  }

  ghost predicate Init(s: State) {
    && UniqueIds(s.log) && s.cursor == None
    && forall p :: 0 <= p < |s.subs| ==> s.subs[p] == Idle
  }

  // The tasks up to and including the cursor's own have all been published.
  ghost predicate Covered(log: seq<Task>, topic: seq<TaskId>, cursor: Option<TaskId>) {
    exists n :: At(log, cursor, n) && PrefixIn(log, topic, n)
  }

  ghost predicate PhaseOk(s: State, phase: Phase) {
    match phase
    case Idle => true
    case Peeked(after) => Covered(s.log, s.topic, after)
    case Publishing(batch, landed) =>
      && (forall k :: k in landed && k < |batch| ==> batch[k].id in s.topic)
      && exists start, end :: IsPage(s.log, start, end, batch) && PrefixIn(s.log, s.topic, start)
    case Confirmed(last) => Covered(s.log, s.topic, Some(last))
  }

  ghost predicate Inv(s: State) {
    && UniqueIds(s.log) && Covered(s.log, s.topic, s.cursor)
    && forall p :: 0 <= p < |s.subs| ==> PhaseOk(s, s.subs[p])
  }

  // Growing the log or the topic forgets nothing.
  lemma CoveredGrows(log: seq<Task>, topic: seq<TaskId>, cursor: Option<TaskId>, more: seq<Task>, extra: seq<TaskId>)
    requires Covered(log, topic, cursor)
    ensures Covered(log + more, topic + extra, cursor)
  {
    var n :| At(log, cursor, n) && PrefixIn(log, topic, n);
    assert At(log + more, cursor, n) && PrefixIn(log + more, topic + extra, n);
  }

  lemma PhaseOkGrows(s: State, phase: Phase, s': State, more: seq<Task>, extra: seq<TaskId>)
    requires PhaseOk(s, phase) && s'.log == s.log + more && s'.topic == s.topic + extra
    ensures PhaseOk(s', phase)
  {
    match phase
    case Idle =>
    case Peeked(after) => CoveredGrows(s.log, s.topic, after, more, extra);
    case Confirmed(last) => CoveredGrows(s.log, s.topic, Some(last), more, extra);
    case Publishing(batch, landed) =>
      var start: nat, end: nat :| IsPage(s.log, start, end, batch) && PrefixIn(s.log, s.topic, start);
      assert s'.log[start..end] == s.log[start..end];
      assert IsPage(s'.log, start, end, batch) && PrefixIn(s'.log, s'.topic, start);
  }

  lemma Grows(s: State, s': State, more: seq<Task>, extra: seq<TaskId>)
    requires Inv(s) && UniqueIds(s'.log) && s'.log == s.log + more && s'.topic == s.topic + extra
    requires s'.cursor == s.cursor && s'.subs == s.subs
    ensures Inv(s')
  {
    CoveredGrows(s.log, s.topic, s.cursor, more, extra);
    forall p | 0 <= p < |s.subs| ensures PhaseOk(s', s'.subs[p]) {
      PhaseOkGrows(s, s.subs[p], s', more, extra);
    }
  }

  // A whole page on the topic covers every task of the page, whichever is last.
  lemma PageCovers(log: seq<Task>, topic: seq<TaskId>, start: nat, end: nat, batch: seq<Task>, last: Task)
    requires IsPage(log, start, end, batch) && PrefixIn(log, topic, start)
    requires forall k :: 0 <= k < |batch| ==> batch[k].id in topic
    requires last in batch
    ensures Covered(log, topic, Some(last.id))
  {
    var page := log[start..end];
    SamePages(batch, page);
    forall j | 0 <= j < end ensures log[j].id in topic {
      if start <= j { assert page[j - start] in batch; }
    }
    var i :| 0 <= i < |page| && page[i] == last;
    assert At(log, Some(last.id), start + i + 1) && PrefixIn(log, topic, start + i + 1);
  }

  // What a step of subscriber p owes when log and topic stay as they are.
  lemma OnlySub(s: State, s': State, p: nat, phase: Phase)
    requires Inv(s) && p < |s.subs| && PhaseOk(s, phase) && s' == s.(subs := s.subs[p := phase], cursor := s'.cursor)
    requires Covered(s.log, s.topic, s'.cursor)
    ensures Inv(s')
  {
    forall q | 0 <= q < |s'.subs| ensures PhaseOk(s', s'.subs[q]) {
      var phaseQ := if q == p then phase else s.subs[q];
      assert s.log == s.log + [] && s.topic == s.topic + [];
      PhaseOkGrows(s, phaseQ, s', [], []);
    }
  }

  lemma InvFetch(s: State, p: nat, start: nat, end: nat, batch: seq<Task>, s': State)
    requires Inv(s) && Next(s, Fetch(p, start, end, batch), s')
    ensures Inv(s')
  {
    var n: nat :| At(s.log, s.subs[p].after, n) && PrefixIn(s.log, s.topic, n);
    AtIsFunctional(s.log, s.subs[p].after, n, start);
    OnlySub(s, s', p, Publishing(batch, {}));
  }

  lemma InvLand(s: State, p: nat, k: nat, s': State)
    requires Inv(s) && Next(s, Land(p, k), s')
    ensures Inv(s')
  {
    var mid := s.(topic := s'.topic);
    assert s.log == s.log + [];
    Grows(s, mid, [], [s.subs[p].batch[k].id]);
    assert PhaseOk(mid, s.subs[p]);
    OnlySub(mid, s', p, s'.subs[p]);
  }

  lemma InvConfirm(s: State, p: nat, s': State)
    requires Inv(s) && Next(s, Confirm(p), s')
    ensures Inv(s')
  {
    var batch := s.subs[p].batch;
    assert PhaseOk(s, s.subs[p]);
    var start: nat, end: nat :| IsPage(s.log, start, end, batch) && PrefixIn(s.log, s.topic, start);
    PageCovers(s.log, s.topic, start, end, batch, batch[|batch| - 1]);
    OnlySub(s, s', p, s'.subs[p]);
  }

  lemma InvNext(s: State, a: Action, s': State)
    requires Inv(s) && Next(s, a, s')
    ensures Inv(s')
  {
    match a
    case Append(task) =>
      assert s.topic == s.topic + [];
      Grows(s, s', [task], []);
    case Stray(id) =>
      assert s.log == s.log + [];
      Grows(s, s', [], [id]);
    case Peek(p) => OnlySub(s, s', p, Peeked(s.cursor));
    case Fetch(p, start, end, batch) => InvFetch(s, p, start, end, batch, s');
    case Land(p, k) => InvLand(s, p, k, s');
    case Confirm(p) => InvConfirm(s, p, s');
    case Upsert(p) => OnlySub(s, s', p, Idle);
    case Abandon(p) => OnlySub(s, s', p, Idle);
  }

  lemma CoveredMeans(log: seq<Task>, topic: seq<TaskId>, cursor: Option<TaskId>)
    requires Covered(log, topic, cursor)
    ensures cursor.Some? ==>
      exists k :: 0 <= k < |log| && log[k].id == cursor.value && forall j :: 0 <= j <= k ==> log[j].id in topic
  {
    var n: nat :| At(log, cursor, n) && PrefixIn(log, topic, n);
    if cursor.Some? { assert log[n - 1].id == cursor.value; }
  }

  lemma EveryStepKeepsInv()
    ensures forall s, a, s' :: Inv(s) && Next(s, a, s') ==> Inv(s')
  {
    forall s, a, s' | Inv(s) && Next(s, a, s') ensures Inv(s') { InvNext(s, a, s'); }
  }

  // Safety over whole runs: whenever Redis holds id c, every task of the log up to
  // and including c is on the topic, even after the cursor has moved backwards.
  lemma CursorCoverage(run: seq<State>, acts: seq<Action>, i: nat)
    requires IsRun(Next, run, acts) && Init(run[0]) && i < |run|
    ensures run[i].cursor.Some? ==>
      exists k :: 0 <= k < |run[i].log| && run[i].log[k].id == run[i].cursor.value
               && forall j :: 0 <= j <= k ==> run[i].log[j].id in run[i].topic
  {
    assert At(run[0].log, None, 0) && PrefixIn(run[0].log, run[0].topic, 0);
    EveryStepKeepsInv();
    Invariant(Next, Inv, run, acts, i);
    CoveredMeans(run[i].log, run[i].topic, run[i].cursor);
  }
}

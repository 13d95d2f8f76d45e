// The stream behind the task that sends commands to the Amplifier API: a channel of
// commands and a set of requests in flight, polled together.
module CommandMachine {
  import opened Options
  import opened Runs
  import opened Seqs

  type Command(==, !new)

  // What a poll yields: the outcome of handing over a command, or of a request that ended.
  datatype Item = Handled(ok: bool) | Joined(request: nat)

  datatype Poll = Pending | Ready(item: Option<Item>)

  // A command taken from the channel, and whether its request could be built. A request
  // is known by the position of its command.
  datatype Taken = Taken(command: Command, built: bool)

  datatype State = State(
    sent: seq<Command>, queue: seq<Command>, closed: bool, terminated: bool,
    taken: seq<Taken>, running: set<nat>, aborted: set<nat>, finished: set<nat>, joined: set<nat>,
    emitted: nat, ended: bool)

  const START := State([], [], false, false, [], {}, {}, {}, {}, 0, false)

  datatype Action =
    | Send(command: Command)
    | Close
    // the request gets its answer, panics or is aborted
    | Finish(request: nat)
    // spent: the poll has used up Tokio's cooperative budget
    | PollNext(built: bool, pick: nat, spent: bool, result: Poll)

  // The channel first: a command that it holds is handed over.
  ghost predicate TakesCommand(s: State, built: bool, result: Poll, s': State) {
    && s.queue != []
    && result == Ready(Some(Handled(built)))
    && s' == s.(queue := s.queue[1..], taken := s.taken + [Taken(s.queue[0], built)],
                running := s.running + if built then {|s.taken|} else {}, emitted := s.emitted + 1)
  }

  // A poll that finds the channel closed and drained sees its end, and aborts the set.
  function SeesEnd(s: State): State {
    if s.terminated || s.closed then s.(terminated := true, aborted := s.aborted + s.running) else s
  }

  // Then the set of requests. An empty one ends the stream once the channel's end was seen.
  ghost predicate JoinsRequest(s: State, pick: nat, spent: bool, result: Poll, s': State) {
    && s.queue == [] && pick in s.finished && !spent
    && result == Ready(Some(Joined(pick)))
    && s' == SeesEnd(s).(finished := s.finished - {pick}, joined := s.joined + {pick}, emitted := s.emitted + 1)
  }

  // Without budget the set gives out no request, even if it has a finished one.
  ghost predicate FindsNothing(s: State, spent: bool, result: Poll, s': State) {
    && s.queue == [] && (s.finished == {} || spent)
    && var end := s.finished == {} && s.running == {} && (s.terminated || s.closed);
       && result == (if end then Ready(None) else Pending)
       && s' == SeesEnd(s).(ended := end)
  }

  ghost predicate Next(s: State, a: Action, s': State) {
    match a
    case Send(command) => !s.closed && s' == s.(sent := s.sent + [command], queue := s.queue + [command])
    case Close => s' == s.(closed := true)
    case Finish(request) =>
      request in s.running && s' == s.(running := s.running - {request}, finished := s.finished + {request})
    case PollNext(built, pick, spent, result) =>
      && !s.ended
      && (TakesCommand(s, built, result, s') || JoinsRequest(s, pick, spent, result, s')
          || FindsNothing(s, spent, result, s'))
  }

  function Commands(taken: seq<Taken>): (r: seq<Command>)
    ensures |r| == |taken|
  {
    if taken == [] then [] else Commands(taken[..|taken| - 1]) + [taken[|taken| - 1].command]
  }

  // The channel loses nothing and keeps its order; every command whose request was built
  // has exactly one request, which is running, waiting to be joined, or joined; what the
  // stream has emitted is one item per command taken and one per request joined.
  ghost predicate Inv(s: State) {
    && Commands(s.taken) + s.queue == s.sent
    && Spawned(s.taken, s.running, s.finished, s.joined)
    && s.emitted == |s.taken| + |s.joined|
    && (s.terminated ==> s.closed && s.queue == [] && s.running <= s.aborted)
    && (s.ended ==> s.terminated && s.running == {} && s.finished == {})
  }

  predicate HasRequest(taken: seq<Taken>, i: nat) {
    i < |taken| && taken[i].built
  }

  ghost predicate Spawned(taken: seq<Taken>, running: set<nat>, finished: set<nat>, joined: set<nat>) {
    && running !! finished && running !! joined && finished !! joined
    && forall i: nat :: HasRequest(taken, i) <==> i in running || i in finished || i in joined
  }

  lemma TakeKeepsOrder(taken: seq<Taken>, queue: seq<Command>, sent: seq<Command>, built: bool)
    requires queue != [] && Commands(taken) + queue == sent
    ensures Commands(taken + [Taken(queue[0], built)]) + queue[1..] == sent
  {
    var more := taken + [Taken(queue[0], built)];
    assert more[..|more| - 1] == taken;
    assert queue == [queue[0]] + queue[1..];
  }

  lemma TakeSpawns(taken: seq<Taken>, running: set<nat>, finished: set<nat>, joined: set<nat>, t: Taken)
    requires Spawned(taken, running, finished, joined)
    ensures Spawned(taken + [t], running + if t.built then {|taken|} else {}, finished, joined)
  {
    assert !HasRequest(taken, |taken|);
    forall i: nat ensures HasRequest(taken + [t], i) <==> HasRequest(taken, i) || (i == |taken| && t.built) {}
  }

  lemma JoinKeeps(taken: seq<Taken>, running: set<nat>, finished: set<nat>, joined: set<nat>, pick: nat)
    requires Spawned(taken, running, finished, joined) && pick in finished
    ensures Spawned(taken, running, finished - {pick}, joined + {pick})
    ensures |joined + {pick}| == |joined| + 1
  {
  }

  lemma InvPoll(s: State, built: bool, pick: nat, spent: bool, result: Poll, s': State)
    requires Inv(s) && Next(s, PollNext(built, pick, spent, result), s')
    ensures Inv(s')
  {
    if TakesCommand(s, built, result, s') {
      TakeKeepsOrder(s.taken, s.queue, s.sent, built);
      TakeSpawns(s.taken, s.running, s.finished, s.joined, Taken(s.queue[0], built));
    } else if JoinsRequest(s, pick, spent, result, s') {
      JoinKeeps(s.taken, s.running, s.finished, s.joined, pick);
    }
  }

  lemma InvNext(s: State, a: Action, s': State)
    requires Inv(s) && Next(s, a, s')
    ensures Inv(s')
  {
    match a
    case Send(command) => Assoc(Commands(s.taken), s.queue, [command]);
    case Close =>
    case Finish(request) =>
    case PollNext(built, pick, spent, result) => InvPoll(s, built, pick, spent, result, s');
  }

  // A poll that finds a command takes it, spawns its request exactly if that can be built,
  // and says which; it leaves the other requests alone.
  lemma PollTakes(s: State, built: bool, pick: nat, spent: bool, result: Poll, s': State)
    requires Reaches(Next, START, s) && Next(s, PollNext(built, pick, spent, result), s') && s.queue != []
    ensures result == Ready(Some(Handled(built)))
    ensures |s'.taken| == |s.taken| + 1 && s'.taken[|s.taken|].command == s.queue[0] && s'.queue == s.queue[1..]
    ensures |s.taken| in s'.running <==> built
    ensures s'.running - {|s.taken|} == s.running && s'.finished == s.finished && s'.joined == s.joined
    ensures s'.sent == s.sent && s'.aborted == s.aborted && s'.emitted == s.emitted + 1
  {
    ReachedInv(s);
    assert !HasRequest(s.taken, |s.taken|);
  }

  // The r-th request is in the set or was joined.
  ghost predicate Spawns(s: State, r: nat) {
    r in s.running || r in s.finished || r in s.joined
  }

  lemma TakenNext(s: State, a: Action, s': State)
    requires Next(s, a, s')
    ensures s'.taken == s.taken ||
      (a.PollNext? && s.queue != [] && |s'.taken| == |s.taken| + 1 && s'.taken[..|s.taken|] == s.taken)
  {
  }

  // A request stays in the set until it is joined, and none is added but the one that is
  // taken.
  lemma SpawnsNext(s: State, a: Action, s': State, r: nat)
    requires Next(s, a, s') && r < |s.taken|
    ensures Spawns(s', r) <==> Spawns(s, r)
  {
    if a.PollNext? { SpawnsPoll(s, a.built, a.pick, a.spent, a.result, s', r); }
  }

  lemma SpawnsPoll(s: State, built: bool, pick: nat, spent: bool, result: Poll, s': State, r: nat)
    requires Next(s, PollNext(built, pick, spent, result), s') && r < |s.taken|
    ensures Spawns(s', r) <==> Spawns(s, r)
  {
    if JoinsRequest(s, pick, spent, result, s') {
    } else if FindsNothing(s, spent, result, s') {
    } else {
      assert TakesCommand(s, built, result, s');
    }
  }

  lemma {:induction false} CommandsAt(taken: seq<Taken>, i: nat)
    requires i < |taken|
    ensures Commands(taken)[i] == taken[i].command
  {
    if i < |taken| - 1 { CommandsAt(taken[..|taken| - 1], i); }
  }

  lemma TakenIsSent(s: State, r: nat)
    requires Inv(s) && r < |s.taken|
    ensures r < |s.sent| && s.taken[r].command == s.sent[r]
  {
    CommandsAt(s.taken, r);
    assert s.sent[r] == Commands(s.taken)[r];
  }

  // In every run, the r-th command taken is the r-th one sent, and it has a request, still
  // running, finished or joined, exactly if the poll that took it could build that.
  lemma {:induction false} RequestIffBuilt(run: seq<State>, acts: seq<Action>, i: nat, r: nat) returns (k: nat)
    requires IsRun(Next, run, acts) && run[0] == START && i < |run| && r < |run[i].taken|
    ensures k < i && acts[k].PollNext? && run[k].queue != [] && |run[k].taken| == r
    ensures r < |run[i].sent| && run[k].queue[0] == run[i].sent[r] == run[i].taken[r].command
    ensures acts[k].result == Ready(Some(Handled(acts[k].built)))
    ensures acts[k].built <==> r in run[i].running || r in run[i].finished || r in run[i].joined
  {
    var before := run[i - 1];
    assert Next(before, acts[i - 1], run[i - 1 + 1]);
    ReachedAt(run, acts, i - 1);
    ReachedInv(before);
    InvNext(before, acts[i - 1], run[i]);
    TakenNext(before, acts[i - 1], run[i]);
    TakenIsSent(run[i], r);
    if r < |before.taken| {
      SpawnsNext(before, acts[i - 1], run[i], r);
      k := RequestIffBuilt(run, acts, i - 1, r);
    } else {
      k := i - 1;
      var a := acts[k];
      PollTakes(before, a.built, a.pick, a.spent, a.result, run[i]);
      assert !HasRequest(before.taken, r);
    }
    assert Spawns(run[i], r) <==> acts[k].built;
  }

  lemma ReachedAt(run: seq<State>, acts: seq<Action>, i: nat)
    requires IsRun(Next, run, acts) && i < |run|
    ensures Reaches(Next, run[0], run[i])
  {
    assert IsRun(Next, run[..i + 1], acts[..i]);
  }

  lemma ReachedInv(s: State)
    requires Reaches(Next, START, s)
    ensures Inv(s)
  {
    forall s, a, s' | Inv(s) && Next(s, a, s') ensures Inv(s') { InvNext(s, a, s'); }
    InvariantReached(Next, Inv, START, s);
  }

  // The stream ends exactly at a poll that finds the channel closed and drained and no
  // request left, whatever happened before.
  lemma EndsIff(s: State, built: bool, pick: nat, spent: bool, result: Poll, s': State)
    requires Reaches(Next, START, s) && Next(s, PollNext(built, pick, spent, result), s')
    ensures result == Ready(None) <==> s.closed && s.queue == [] && s.running == {} && s.finished == {}
    ensures result == Ready(None) <==> s'.ended
  {
    ReachedInv(s);
  }

  // A poll waits exactly if there is nothing to take, nothing to join or no budget for it,
  // and something is there or can still come.
  lemma WaitsIff(s: State, built: bool, pick: nat, spent: bool, result: Poll, s': State)
    requires Reaches(Next, START, s) && Next(s, PollNext(built, pick, spent, result), s')
    ensures result == Pending <==>
      s.queue == [] && (if s.finished == {} then !(s.closed && s.running == {}) else spent)
  {
    ReachedInv(s);
  }

  // When the stream has ended, every command sent was taken, in order, and every request
  // built was joined: nothing is lost.
  lemma NothingLost(s: State)
    requires Reaches(Next, START, s) && s.ended
    ensures |s.taken| == |s.sent| && forall i :: 0 <= i < |s.sent| ==> s.taken[i].command == s.sent[i]
    ensures forall i: nat :: i in s.joined <==> i < |s.taken| && s.taken[i].built
    ensures s.emitted == |s.sent| + |s.joined|
  {
    ReachedInv(s);
    assert Commands(s.taken) + [] == Commands(s.taken);
    forall i | 0 <= i < |s.sent| ensures s.taken[i].command == s.sent[i] { CommandsAt(s.taken, i); }
    forall i: nat ensures i in s.joined <==> HasRequest(s.taken, i) {}
  }

  // The requests in the set.
  function InFlight(s: State): nat {
    |s.running| + |s.finished|
  }

  // Since the channel's end was seen in s, no request was spawned, every item was a request
  // that left the set, and what still runs has been aborted.
  ghost predicate Since(s: State, t: State) {
    t.terminated && t.running <= t.aborted && t.taken == s.taken && InFlight(t) + t.emitted == InFlight(s) + s.emitted
  }

  lemma SinceNext(s: State, t: State, a: Action, u: State)
    requires Inv(t) && Since(s, t) && Next(t, a, u)
    ensures Inv(u) && Since(s, u)
  {
    InvNext(t, a, u);
  }

  // Its size then bounds how many items are still to come.
  lemma SetBoundsItems(s: State, t: State)
    requires Reaches(Next, START, s) && s.terminated && Reaches(Next, s, t)
    ensures t.terminated && t.running <= t.aborted && t.taken == s.taken
    ensures |t.running| + |t.finished| + t.emitted == |s.running| + |s.finished| + s.emitted
    ensures t.emitted <= s.emitted + |s.running| + |s.finished|
  {
    ReachedInv(s);
    var since := (t: State) => Inv(t) && Since(s, t);
    forall t, a, u | since(t) && Next(t, a, u) ensures since(u) { SinceNext(s, t, a, u); }
    InvariantReached(Next, since, s, t);
  }

  // The poll function itself. Which finished request the set gives first is up to it.
  class TaskStream {
    var queue: seq<Command>
    var closed: bool
    var terminated: bool
    var running: set<nat>
    var aborted: set<nat>
    var finished: set<nat>
    var taken: seq<Taken>
    ghost var sent: seq<Command>
    ghost var joined: set<nat>
    ghost var emitted: nat
    ghost var ended: bool

    constructor ()
      ensures Value() == START
    {
      queue, closed, terminated, running, aborted, finished, taken := [], false, false, {}, {}, {}, [];
      sent, joined, emitted, ended := [], {}, 0, false;
    }

    ghost function Value(): State
      reads this
    {
      State(sent, queue, closed, terminated, taken, running, aborted, finished, joined, emitted, ended)
    }

    // Hands a command over: its request is spawned if it can be built.
    method Internal(built: bool) returns (ok: bool)
      requires queue != []
      modifies this
      ensures Value() == old(Value()).(queue := old(queue)[1..], taken := old(taken) + [Taken(old(queue)[0], built)],
                                       running := old(running) + if built then {|old(taken)|} else {})
      ensures ok == built
    {
      var request := |taken|;
      taken := taken + [Taken(queue[0], built)];
      queue := queue[1..];
      if built { running := running + {request}; }
      ok := built;
    }

    // The channel's end: all requests in the set are told to stop.
    method AbortAll()
      modifies this
      ensures Value() == old(Value()).(terminated := true, aborted := old(aborted) + old(running))
    {
      terminated := true;
      aborted := aborted + running;
    }

    method PollJoinNext(pick: nat, spent: bool) returns (next: Poll)
      requires finished != {} ==> pick in finished
      modifies this
      ensures Value() ==
        if old(finished) != {} && !spent
        then old(Value()).(finished := old(finished) - {pick}, joined := old(joined) + {pick})
        else old(Value())
      ensures next ==
        if old(finished) != {} && !spent then Ready(Some(Joined(pick)))
        else if running + old(finished) == {} then Ready(None) else Poll.Pending
    {
      if finished != {} && !spent {
        finished := finished - {pick};
        joined := joined + {pick};
        next := Ready(Some(Joined(pick)));
      } else {
        next := if running + finished == {} then Ready(None) else Poll.Pending;
      }
    }

    method PollNext(built: bool, pick: nat, spent: bool) returns (result: Poll)
      requires !ended && (finished != {} ==> pick in finished)
      modifies this
      ensures Next(old(Value()), Action.PollNext(built, pick, spent, result), Value())
      ensures old(queue) != [] ==>
        && result == Ready(Some(Handled(built))) && queue == old(queue)[1..]
        && running == old(running) + if built then {|old(taken)|} else {}
      ensures old(queue) == [] && (closed || terminated) ==> terminated && running <= aborted
    {
      if queue != [] {
        var ok := Internal(built);
        emitted := emitted + 1;
        return Ready(Some(Handled(ok)));
      }
      if closed || terminated { AbortAll(); }
      result := PollJoinNext(pick, spent);
      if result.Ready? && result.item.Some? {
        emitted := emitted + 1;
      } else if result.Ready? {
        if terminated { ended := true; } else { result := Pending; }
      }
    }
  }
}

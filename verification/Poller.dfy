// The polling component in the shape of the source: the start-up, the tick body and
// a request's task, over the two durable records, the channel and the join set.
module Poller {
  import opened Options
  import opened Runs
  import opened Seqs
  import opened TaskLog
  import opened PollingGate

  class Amplifier {
    var processed: Option<TaskId>
    var queried: Option<TaskId>
    var channel: seq<Task>
    var joinSet: seq<Request>

    ghost var log: seq<Task>
    ghost var downstream: Downstream
    ghost var handled: seq<TaskId>
    ghost var sent: seq<Task>
    ghost var origin: Option<TaskId>

    ghost function World(): State
      reads this
    {
      State(log, processed, queried, NoTick, joinSet, channel, downstream, handled, sent, origin)
    }

    // A new process over the records that a previous one left behind.
    constructor Restarted(processed: Option<TaskId>, queried: Option<TaskId>, ghost before: State)
      requires processed == before.processed && queried == before.queried
      ensures World() == Started(before)
      ensures this.processed == processed && this.queried == if processed.Some? then processed else queried
      ensures channel == [] && joinSet == []
    {
      this.processed, this.queried := processed, queried;
      channel, joinSet := [], [];
      log, downstream, handled, sent, origin := before.log, Waiting, before.handled, [], before.processed;
      new;
      if processed.Some? { this.queried := processed; }
    }

    // What the requests and downstream have made of the world meanwhile.
    method Become(world: State)
      requires world.tick.NoTick?
      modifies this
      ensures World() == world
    {
      processed, queried, channel, joinSet := world.processed, world.queried, world.channel, world.requests;
      log, downstream, handled, sent, origin := world.log, world.downstream, world.handled, world.sent, world.origin;
    }

    // The body of a tick: a request is spawned only when the channel is empty and the
    // processed record is equal to the queried one. The channel is looked at first, then
    // the processed record is read, then the queried one; before each read the others may
    // have moved on, to these two states.
    method Internal(first: State, second: State)
      requires channel == [] ==>
        && first.tick.SawEmpty? && Reaches(Next, World().(tick := SawEmpty), first)
        && second.tick == ReadProcessed(first.processed)
        && Reaches(Next, first.(tick := second.tick), second)
      modifies this
      ensures Reaches(Next, old(World()), World())
      ensures old(channel) != [] ==> World() == old(World())
      ensures old(channel) == [] ==>
        var spawned := if first.processed == second.queried then [Asked(first.processed)] else [];
        && World() == second.(tick := NoTick, requests := second.requests + spawned)
        && processed == second.processed && queried == second.queried && channel == second.channel
        && joinSet == second.requests + spawned
    {
      ghost var s := World();
      ReachesSelf<State, Action>(Next, s);
      if channel != [] { return; }
      ReachesNext(Next, s, s, TickEmpty, s.(tick := SawEmpty));
      ReachesTrans<State, Action>(Next, s, s.(tick := SawEmpty), first);
      Become(first.(tick := NoTick));
      var latestProcessed := processed;
      ReachesNext(Next, s, first, TickProcessed, first.(tick := second.tick));
      ReachesTrans<State, Action>(Next, s, first.(tick := second.tick), second);
      Become(second.(tick := NoTick));
      var latestQueried := queried;
      if latestProcessed == latestQueried {
        joinSet := joinSet + [Asked(latestProcessed)];
        ReachesNext(Next, s, second, TickSpawn, World());
      } else {
        assert second.requests + [] == second.requests;
        ReachesNext(Next, s, second, TickSkip, World());
      }
    }

    // The task of the r-th request: the response's tasks go on the channel one by
    // one, then the last one's id is recorded. No response is an error.
    method ProcessTaskRequest(r: nat, response: Option<seq<Task>>, recordFails: bool, ghost start: nat, ghost end: nat)
      returns (ok: bool)
      requires r < |joinSet| && joinSet[r].Asked?
      requires response.Some? ==>
        At(log, joinSet[r].after, start) && start <= end <= |log| && response.value == log[start..end]
      modifies this
      ensures Reaches(Next, old(World()), World())
      ensures joinSet == old(joinSet)[r := Done] && processed == old(processed)
      ensures channel == old(channel) + if response.Some? then response.value else []
      ensures queried == if response.Some? && response.value != [] && !recordFails
        then Some(response.value[|response.value| - 1].id) else old(queried)
      ensures ok <==> (response.Some? && (response.value == [] || !recordFails))
    {
      if response.None? {
        RequestFails(r);
        ok := false;
      } else if response.value == [] {
        NothingNew(r, start);
        ok := true;
      } else {
        ok := ReceiveTasks(r, response.value, recordFails, start, end);
      }
    }

    method RequestFails(r: nat)
      requires r < |joinSet|
      modifies this
      ensures World() == old(World()).(requests := old(joinSet)[r := Done]) && Reaches(Next, old(World()), World())
    {
      ghost var s := World();
      ReachesSelf<State, Action>(Next, s);
      joinSet := joinSet[r := Done];
      ReachesNext(Next, s, s, Fail(r), World());
    }

    method NothingNew(r: nat, ghost start: nat)
      requires r < |joinSet| && joinSet[r].Asked? && At(log, joinSet[r].after, start) && start <= |log|
      modifies this
      ensures World() == old(World()).(requests := old(joinSet)[r := Done]) && Reaches(Next, old(World()), World())
    {
      ghost var s := World();
      ReachesSelf<State, Action>(Next, s);
      joinSet := joinSet[r := Done];
      ReachesNext(Next, s, s, Respond(r, start, start), World());
    }

    method ReceiveTasks(r: nat, tasks: seq<Task>, recordFails: bool, ghost start: nat, ghost end: nat)
      returns (ok: bool)
      requires r < |joinSet| && joinSet[r].Asked?
      requires At(log, joinSet[r].after, start) && start <= end <= |log| && tasks == log[start..end] && tasks != []
      modifies this
      ensures Reaches(Next, old(World()), World()) && ok == !recordFails
      ensures World() == old(World()).(channel := old(channel) + tasks, sent := old(sent) + tasks,
                                       requests := old(joinSet)[r := Done],
                                       queried := if recordFails then old(queried) else Some(tasks[|tasks| - 1].id))
    {
      ghost var s := World();
      ReachesSelf<State, Action>(Next, s);
      var last := tasks[|tasks| - 1].id;
      joinSet := joinSet[r := Sending(tasks, last)];
      ReachesNext(Next, s, s, Respond(r, start, end), World());
      ok := Deliver(s, r, tasks, last, recordFails);
    }

    method Deliver(ghost s: State, r: nat, tasks: seq<Task>, last: TaskId, recordFails: bool) returns (ok: bool)
      requires r < |joinSet| && joinSet[r] == Sending(tasks, last) && Reaches(Next, s, World())
      modifies this
      ensures Reaches(Next, s, World()) && ok == !recordFails
      ensures World() == old(World()).(channel := old(channel) + tasks, sent := old(sent) + tasks,
                                       requests := old(joinSet)[r := Done],
                                       queried := if recordFails then old(queried) else Some(last))
    {
      SendAll(s, r, tasks, last);
      ghost var t := World();
      joinSet := joinSet[r := Done];
      if recordFails {
        ReachesNext(Next, s, t, Fail(r), World());
        return false;
      }
      queried := Some(last);
      ReachesNext(Next, s, t, SetQueried(r), World());
      ok := true;
    }

    method SendAll(ghost s: State, r: nat, tasks: seq<Task>, last: TaskId)
      requires r < |joinSet| && joinSet[r] == Sending(tasks, last) && Reaches(Next, s, World())
      modifies this
      ensures Reaches(Next, s, World())
      ensures World() == old(World()).(channel := old(channel) + tasks, sent := old(sent) + tasks,
                                       requests := old(joinSet)[r := Sending([], last)])
    {
      for k := 0 to |tasks|
        invariant Reaches(Next, s, World())
        invariant World() == old(World()).(channel := old(channel) + tasks[..k], sent := old(sent) + tasks[..k],
                                           requests := old(joinSet)[r := Sending(tasks[k..], last)])
      {
        ghost var t := World();
        channel := channel + [tasks[k]];
        sent := sent + [tasks[k]];
        joinSet := joinSet[r := Sending(tasks[k + 1..], last)];
        assert tasks[k..][1..] == tasks[k + 1..] && tasks[..k + 1] == tasks[..k] + [tasks[k]];
        ReachesNext(Next, s, t, Push(r), World());
      }
    }
  }
}

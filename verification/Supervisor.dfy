// The supervisor's registry of workers, their threads and the channel on which names come
// back for a restart, as steps that interleave.
module Supervisor {
  import opened Options
  import opened Runs

  type Name(==, !new)

  // A thread ends either because it could not create its runtime, or because its worker
  // failed, panicked or was cancelled. One that has sent its name has still to return.
  datatype Status = Spawned | Working | Reported | Exited

  datatype Thread = Thread(name: Name, status: Status)

  // Where the supervisor's own thread is: building the configured workers, waiting,
  // building a worker again, joining the handle that the new one replaces, or past its
  // loop.
  datatype Place = Starting | Idle | Building(name: Name) | Replacing(name: Name, handle: nat) | Stopped

  datatype State = State(
    unstarted: seq<Name>, place: Place, active: map<Name, nat>, channel: seq<Name>,
    threads: seq<Thread>, cancelled: bool)

  datatype Action =
    | StartWorker(built: bool)
    | EndStarting
    | Receive
    | Rebuild(built: bool)
    | JoinOld
    | CreateRuntime(handle: nat, ok: bool)
    | EndWorker(handle: nat)
    | Return(handle: nat)
    | Cancel
    | Stop

  function Start(names: seq<Name>): State {
    State(names, Starting, map[], [], [], false)
  }

  ghost predicate Next(s: State, a: Action, s': State) {
    match a
    case StartWorker(built) =>
      && s.place.Starting? && s.unstarted != []
      && var t := s.(unstarted := s.unstarted[1..]);
         var name := s.unstarted[0];
         s' == if built then t.(threads := s.threads + [Thread(name, Spawned)], active := s.active[name := |s.threads|])
               else t.(channel := s.channel + [name])
    case EndStarting => s.place.Starting? && s.unstarted == [] && s' == s.(place := Idle)
    case Receive =>
      && s.place.Idle? && s.channel != []
      && s' == s.(channel := s.channel[1..], place := if s.cancelled then Idle else Building(s.channel[0]))
    case Rebuild(built) =>
      && s.place.Building?
      && s' == if built then s.(threads := s.threads + [Thread(s.place.name, Spawned)],
                                place := Replacing(s.place.name, |s.threads|))
               else s.(channel := s.channel + [s.place.name], place := Idle)
    case JoinOld =>
      && s.place.Replacing? && OldExited(s)
      && s' == s.(active := s.active[s.place.name := s.place.handle], place := Idle)
    case CreateRuntime(handle, ok) =>
      && HasStatus(s.threads, handle, Spawned)
      && s' == if ok then s.(threads := s.threads[handle := s.threads[handle].(status := Working)])
               else End(s, handle, true)
    case EndWorker(handle) => HasStatus(s.threads, handle, Working) && s' == End(s, handle, s.cancelled)
    case Return(handle) =>
      HasStatus(s.threads, handle, Reported) && s' == s.(threads := Returned(s.threads, handle))
    case Cancel => s' == s.(cancelled := true)
    case Stop => s.place.Idle? && s.cancelled && s' == s.(place := Stopped)
  }

  predicate HasStatus(threads: seq<Thread>, handle: nat, status: Status) {
    handle < |threads| && threads[handle].status == status
  }

  // A thread ends its work; a worker's end is reported only if the run is being cancelled.
  function End(s: State, handle: nat, reports: bool): State
    requires handle < |s.threads|
  {
    var status := if reports then Reported else Exited;
    s.(threads := s.threads[handle := s.threads[handle].(status := status)],
       channel := s.channel + if reports then [s.threads[handle].name] else [])
  }

  function Returned(threads: seq<Thread>, handle: nat): seq<Thread>
    requires handle < |threads|
  {
    threads[handle := threads[handle].(status := Exited)]
  }

  predicate Ended(t: Thread) {
    t.status.Reported? || t.status.Exited?
  }

  predicate HasEnd(threads: seq<Thread>, handle: nat) {
    handle < |threads| && Ended(threads[handle])
  }

  // Joining waits until the old thread has exited.
  predicate OldExited(s: State)
    requires s.place.Replacing?
  {
    s.place.name in s.active ==> HasStatus(s.threads, s.active[s.place.name], Exited)
  }

  // One that has reported its end has only to return.
  predicate OldEnded(s: State)
    requires s.place.Replacing?
  {
    s.place.name in s.active ==> HasEnd(s.threads, s.active[s.place.name])
  }

  function Count(names: seq<Name>, n: Name): nat {
    if names == [] then 0 else Count(names[1..], n) + if names[0] == n then 1 else 0
  }

  // The threads of a name that have not ended.
  function Live(threads: seq<Thread>, n: Name): nat {
    if threads == [] then 0
    else Live(threads[..|threads| - 1], n)
         + if threads[|threads| - 1].name == n && !Ended(threads[|threads| - 1]) then 1 else 0
  }

  // What can make a worker of this name run: its turn to be started, a live thread, its
  // name on the channel, or the supervisor building it.
  function Claims(s: State, n: Name): nat {
    Count(s.unstarted, n) + Live(s.threads, n) + Count(s.channel, n) + if s.place == Building(n) then 1 else 0
  }

  // No name has more than one claim, and none outside the configuration has any; handles
  // in the registry are of their name; of the threads of a name all but the newest have
  // ended, and so has the one that a new one replaces; and before cancellation no name
  // is missing.
  ghost predicate Inv(s: State, names: seq<Name>) {
    && (forall n :: Claims(s, n) <= if n in names then 1 else 0)
    && Registered(s.active, s.threads) && OlderEnded(s.threads)
    && (s.place.Replacing? ==> HasName(s.threads, s.place.handle, s.place.name) && OldEnded(s))
    && (s.cancelled || forall n :: n in names ==> Present(s, n))
  }

  predicate HasName(threads: seq<Thread>, handle: nat, n: Name) {
    handle < |threads| && threads[handle].name == n
  }

  ghost predicate Registered(active: map<Name, nat>, threads: seq<Thread>) {
    forall n :: n in active ==> HasName(threads, active[n], n)
  }

  ghost predicate OlderEnded(threads: seq<Thread>) {
    forall i: nat, k: nat :: i < k < |threads| && threads[i].name == threads[k].name ==> Ended(threads[i])
  }

  ghost predicate Present(s: State, n: Name) {
    || n in s.unstarted || n in s.active || n in s.channel
    || s.place == Building(n) || (s.place.Replacing? && s.place.name == n)
  }

  lemma {:induction false} CountAppend(names: seq<Name>, x: Name, n: Name)
    ensures Count(names + [x], n) == Count(names, n) + if x == n then 1 else 0
  {
    if names != [] {
      CountAppend(names[1..], x, n);
      assert (names + [x])[1..] == names[1..] + [x];
    }
  }

  lemma {:induction false} CountIn(names: seq<Name>, n: Name)
    ensures Count(names, n) > 0 <==> n in names
  {
    if names != [] { CountIn(names[1..], n); }
  }

  lemma {:induction false} CountDistinct(names: seq<Name>, n: Name)
    requires forall i, j :: 0 <= i < j < |names| ==> names[i] != names[j]
    ensures Count(names, n) <= if n in names then 1 else 0
  {
    if names != [] {
      CountDistinct(names[1..], n);
      if names[0] == n { assert n !in names[1..]; }
    }
  }

  function IsLive(t: Thread, n: Name): nat {
    if t.name == n && !Ended(t) then 1 else 0
  }

  lemma LiveAppend(threads: seq<Thread>, t: Thread, n: Name)
    ensures Live(threads + [t], n) == Live(threads, n) + IsLive(t, n)
  {
    assert (threads + [t])[..|threads|] == threads;
  }

  lemma {:induction false} LiveSet(threads: seq<Thread>, handle: nat, t: Thread, n: Name)
    requires handle < |threads|
    ensures Live(threads[handle := t], n) == Live(threads, n) - IsLive(threads[handle], n) + IsLive(t, n)
  {
    var last := |threads| - 1;
    if handle == last {
      assert threads[handle := t][..last] == threads[..last];
    } else {
      LiveSet(threads[..last], handle, t, n);
      assert threads[handle := t][..last] == threads[..last][handle := t];
    }
  }

  lemma {:induction false} LiveOne(threads: seq<Thread>, handle: nat, n: Name)
    requires handle < |threads| && IsLive(threads[handle], n) == 1
    ensures Live(threads, n) >= 1
  {
    if handle < |threads| - 1 { LiveOne(threads[..|threads| - 1], handle, n); }
  }

  lemma {:induction false} LiveTwo(threads: seq<Thread>, handle: nat, other: nat, n: Name)
    requires handle < other < |threads| && IsLive(threads[handle], n) == 1 && IsLive(threads[other], n) == 1
    ensures Live(threads, n) >= 2
  {
    if other < |threads| - 1 {
      LiveTwo(threads[..|threads| - 1], handle, other, n);
    } else {
      LiveOne(threads[..|threads| - 1], handle, n);
    }
  }

  lemma EndClaims(s: State, handle: nat, reports: bool, n: Name)
    requires handle < |s.threads| && !Ended(s.threads[handle])
    ensures Claims(End(s, handle, reports), n) ==
      Claims(s, n) - if !reports && s.threads[handle].name == n then 1 else 0
  {
    LiveSet(s.threads, handle, End(s, handle, reports).threads[handle], n);
    if reports {
      CountAppend(s.channel, s.threads[handle].name, n);
    } else {
      assert s.channel + [] == s.channel;
    }
  }

  // A worker of this name ends without a report, or a report is dropped.
  predicate Loses(s: State, a: Action, n: Name) {
    || (a.EndWorker? && !s.cancelled && HasName(s.threads, a.handle, n))
    || (a.Receive? && s.cancelled && s.channel != [] && s.channel[0] == n)
  }

  lemma ThreadClaims(s: State, a: Action, s': State, n: Name)
    requires Next(s, a, s') && (a.CreateRuntime? || a.EndWorker? || a.Return?)
    ensures Claims(s', n) == Claims(s, n) - if Loses(s, a, n) then 1 else 0
  {
    if a.EndWorker? {
      EndClaims(s, a.handle, s.cancelled, n);
    } else if a.CreateRuntime? && !a.ok {
      EndClaims(s, a.handle, true, n);
    } else {
      LiveSet(s.threads, a.handle, s'.threads[a.handle], n);
    }
  }

  // No step gives a name a claim that it did not have, and only these two take one: a
  // failed build and a failed runtime creation do not.
  lemma ClaimsNext(s: State, a: Action, s': State, n: Name)
    requires Next(s, a, s')
    ensures Claims(s', n) == Claims(s, n) - if Loses(s, a, n) then 1 else 0
  {
    match a
    case StartWorker(built) =>
      if built {
        LiveAppend(s.threads, Thread(s.unstarted[0], Spawned), n);
      } else {
        CountAppend(s.channel, s.unstarted[0], n);
      }
    case EndStarting =>
    case Receive =>
    case Rebuild(built) =>
      if built {
        LiveAppend(s.threads, Thread(s.place.name, Spawned), n);
      } else {
        CountAppend(s.channel, s.place.name, n);
      }
    case JoinOld =>
    case CreateRuntime(_, _) => ThreadClaims(s, a, s', n);
    case EndWorker(_) => ThreadClaims(s, a, s', n);
    case Return(_) => ThreadClaims(s, a, s', n);
    case Cancel =>
    case Stop =>
  }

  lemma NoneLive(threads: seq<Thread>, n: Name)
    requires Live(threads, n) == 0
    ensures forall k: nat :: HasName(threads, k, n) ==> Ended(threads[k])
  {
    forall k: nat | HasName(threads, k, n) ensures Ended(threads[k]) {
      if !Ended(threads[k]) { LiveOne(threads, k, n); }
    }
  }

  // Whenever a thread is spawned, the others of its name have ended.
  lemma SpawnAlone(s: State, n: Name)
    requires s.place == Building(n) || (s.unstarted != [] && s.unstarted[0] == n)
    requires Claims(s, n) <= 1 && OlderEnded(s.threads)
    ensures forall k: nat :: HasName(s.threads, k, n) ==> Ended(s.threads[k])
    ensures OlderEnded(s.threads + [Thread(n, Spawned)])
  {
    NoneLive(s.threads, n);
    var more := s.threads + [Thread(n, Spawned)];
    forall i: nat, k: nat | i < k < |more| && more[i].name == more[k].name ensures Ended(more[i]) {
      if k == |s.threads| { assert HasName(s.threads, i, n); }
    }
  }

  lemma PresentNext(s: State, a: Action, s': State, n: Name)
    requires Next(s, a, s') && Present(s, n)
    ensures s'.cancelled || Present(s', n)
  {
  }

  lemma OlderNext(s: State, a: Action, s': State, names: seq<Name>)
    requires Inv(s, names) && Next(s, a, s')
    ensures OlderEnded(s'.threads)
  {
    if a.StartWorker? { SpawnAlone(s, s.unstarted[0]); }
    if a.Rebuild? { SpawnAlone(s, s.place.name); }
  }

  lemma RegistryNext(s: State, a: Action, s': State, names: seq<Name>)
    requires Inv(s, names) && Next(s, a, s')
    ensures Registered(s'.active, s'.threads)
    ensures s'.place.Replacing? ==> HasName(s'.threads, s'.place.handle, s'.place.name) && OldEnded(s')
  {
    if a.Rebuild? { SpawnAlone(s, s.place.name); }
  }

  lemma InvNext(s: State, a: Action, s': State, names: seq<Name>)
    requires Inv(s, names) && Next(s, a, s')
    ensures Inv(s', names)
  {
    forall n ensures Claims(s', n) <= if n in names then 1 else 0 { ClaimsNext(s, a, s', n); }
    RegistryNext(s, a, s', names);
    OlderNext(s, a, s', names);
    if !s'.cancelled {
      forall n | n in names ensures Present(s', n) { PresentNext(s, a, s', n); }
    }
  }

  // The configured names are keys of a map.
  ghost predicate Distinct(names: seq<Name>) {
    forall i, j :: 0 <= i < j < |names| ==> names[i] != names[j]
  }

  lemma ReachedInv(names: seq<Name>, s: State)
    requires Distinct(names) && Reaches(Next, Start(names), s)
    ensures Inv(s, names)
  {
    var inv := (s: State) => Inv(s, names);
    forall n ensures Claims(Start(names), n) <= if n in names then 1 else 0 { CountDistinct(names, n); }
    forall s, a, s' | inv(s) && Next(s, a, s') ensures inv(s') { InvNext(s, a, s', names); }
    InvariantReached(Next, inv, Start(names), s);
  }

  // Whatever the threads do: of the threads of a name all but the newest have ended; every
  // name on the channel has its builder; the thread that a restart joins has ended; and
  // until cancellation every name is in the registry, on the channel, or being built.
  lemma RegistryIsSound(names: seq<Name>, s: State)
    requires Distinct(names) && Reaches(Next, Start(names), s)
    ensures forall h, k :: 0 <= h < k < |s.threads| && s.threads[h].name == s.threads[k].name ==>
      s.threads[h].status.Reported? || s.threads[h].status.Exited?
    ensures forall n :: n in s.channel ==> n in names
    ensures s.place.Replacing? && s.place.name in s.active ==>
      var k := s.active[s.place.name];
      k < |s.threads| && (s.threads[k].status.Reported? || s.threads[k].status.Exited?)
    ensures !s.cancelled ==> forall n :: n in names ==>
      || n in s.unstarted || n in s.active || n in s.channel
      || s.place == Building(n) || (s.place.Replacing? && s.place.name == n)
  {
    ReachedInv(names, s);
    forall n | n in s.channel ensures n in names {
      CountIn(s.channel, n);
      assert Claims(s, n) <= if n in names then 1 else 0;
    }
    if !s.cancelled {
      forall n | n in names
        ensures || n in s.unstarted || n in s.active || n in s.channel
                || s.place == Building(n) || (s.place.Replacing? && s.place.name == n)
      {
        assert Present(s, n);
      }
    }
  }

  // This thread's worker has begun to work, no other thread of its name is left or came
  // later, and nothing is about to start one: a name that comes back will be dropped.
  ghost predicate IsLast(s: State, handle: nat, n: Name) {
    && HasName(s.threads, handle, n) && !s.threads[handle].status.Spawned?
    && (forall k: nat :: k != handle && HasName(s.threads, k, n) ==> k < handle && Ended(s.threads[k]))
    && n !in s.unstarted && s.place != Building(n) && (n in s.channel ==> s.cancelled)
  }

  lemma WorkingIsLast(s: State, handle: nat, names: seq<Name>)
    requires Inv(s, names) && HasStatus(s.threads, handle, Working)
    ensures IsLast(s, handle, s.threads[handle].name)
  {
    var n := s.threads[handle].name;
    LiveOne(s.threads, handle, n);
    assert Claims(s, n) <= 1;
    CountIn(s.unstarted, n);
    CountIn(s.channel, n);
    forall k: nat | k != handle && HasName(s.threads, k, n) ensures k < handle && Ended(s.threads[k]) {
      assert k <= handle;
    }
  }

  lemma IsLastNext(s: State, a: Action, s': State, handle: nat, n: Name)
    requires IsLast(s, handle, n) && Next(s, a, s')
    ensures IsLast(s', handle, n)
  {
    if a.CreateRuntime? && !a.ok { assert s.threads[a.handle].name != n; }
  }

  // A worker that has begun to work is never run again, however it ends: before
  // cancellation its end is not reported, and afterwards the report is dropped.
  lemma NeverRestarted(names: seq<Name>, s: State, handle: nat, t: State)
    requires Distinct(names) && Reaches(Next, Start(names), s) && HasStatus(s.threads, handle, Working)
    requires Reaches(Next, s, t)
    ensures HasName(t.threads, handle, s.threads[handle].name)
    ensures forall k: nat :: HasName(t.threads, k, s.threads[handle].name) ==> k <= handle
  {
    var n := s.threads[handle].name;
    ReachedInv(names, s);
    WorkingIsLast(s, handle, names);
    var last := (s: State) => IsLast(s, handle, n);
    forall s, a, s' | last(s) && Next(s, a, s') ensures last(s') { IsLastNext(s, a, s', handle, n); }
    InvariantReached(Next, last, s, t);
  }

  // The worker of a name that has begun to work ends at this step.
  predicate EndsWorker(s: State, a: Action, n: Name) {
    a.EndWorker? && HasName(s.threads, a.handle, n)
  }

  ghost predicate HasEnded(run: seq<State>, acts: seq<Action>, n: Name, i: nat)
    requires i <= |run| && i <= |acts|
  {
    exists k :: 0 <= k < i && EndsWorker(run[k], acts[k], n)
  }

  lemma EndingTakesClaim(s: State, a: Action, s': State, n: Name)
    requires Next(s, a, s') && !s'.cancelled
    ensures !s.cancelled && (Loses(s, a, n) <==> EndsWorker(s, a, n))
    ensures Claims(s', n) == Claims(s, n) - if EndsWorker(s, a, n) then 1 else 0
  {
    ClaimsNext(s, a, s', n);
  }

  lemma EndedBefore(run: seq<State>, acts: seq<Action>, n: Name, i: nat)
    requires i < |run| && i < |acts|
    ensures HasEnded(run, acts, n, i + 1) <==> HasEnded(run, acts, n, i) || EndsWorker(run[i], acts[i], n)
  {
    if HasEnded(run, acts, n, i) {
      var k :| 0 <= k < i && EndsWorker(run[k], acts[k], n);
    }
  }

  // When failed workers come back: before cancellation a configured name still has its
  // one claim, and so another attempt, if and only if its worker has not ended after it
  // had begun to work. A build that fails and a runtime that cannot be created keep the
  // claim, however often; a worker that fails or panics loses it for good.
  lemma {:induction false} RestartedIff(names: seq<Name>, run: seq<State>, acts: seq<Action>, n: Name, i: nat)
    requires Distinct(names) && IsRun(Next, run, acts) && run[0] == Start(names) && i < |run|
    requires n in names && !run[i].cancelled
    ensures Claims(run[i], n) == if HasEnded(run, acts, n, i) then 0 else 1
  {
    if i == 0 {
      CountDistinct(names, n);
      CountIn(names, n);
    } else {
      assert Next(run[i - 1], acts[i - 1], run[i - 1 + 1]);
      EndingTakesClaim(run[i - 1], acts[i - 1], run[i], n);
      RestartedIff(names, run, acts, n, i - 1);
      EndedBefore(run, acts, n, i - 1);
    }
  }

  // What a claim is worth: with every thread of the name ended, the supervisor has still
  // to start it, holds its name on the channel, or is building it; without a claim none
  // of that, and no thread of it is left.
  lemma ClaimMeans(s: State, n: Name)
    ensures Claims(s, n) == 0 ==>
      && n !in s.unstarted && n !in s.channel && s.place != Building(n)
      && forall k: nat :: HasName(s.threads, k, n) ==> Ended(s.threads[k])
    ensures Claims(s, n) > 0 && (forall k: nat :: HasName(s.threads, k, n) ==> Ended(s.threads[k])) ==>
      n in s.unstarted || n in s.channel || s.place == Building(n)
  {
    CountIn(s.unstarted, n);
    CountIn(s.channel, n);
    if Claims(s, n) == 0 { NoneLive(s.threads, n); }
    if forall k: nat :: HasName(s.threads, k, n) ==> Ended(s.threads[k]) { AllEnded(s.threads, n); }
  }

  lemma {:induction false} AllEnded(threads: seq<Thread>, n: Name)
    requires forall k: nat :: HasName(threads, k, n) ==> Ended(threads[k])
    ensures Live(threads, n) == 0
  {
    if threads != [] {
      var front := threads[..|threads| - 1];
      forall k: nat | HasName(front, k, n) ensures Ended(front[k]) { assert HasName(threads, k, n); }
      AllEnded(front, n);
      assert HasName(threads, |threads| - 1, n) ==> Ended(threads[|threads| - 1]);
    }
  }

  // A worker can fail with no sign of it but its handle: it stays in the registry.
  lemma SilentFailure(n: Name) returns (s: State)
    ensures Reaches(Next, Start([n]), s)
    ensures !s.cancelled && s.place == Idle && s.channel == [] && n in s.active
      && HasStatus(s.threads, s.active[n], Exited)
  {
    var s0 := Start([n]);
    var s1 := State([], Starting, map[n := 0], [], [Thread(n, Spawned)], false);
    var s2 := s1.(place := Idle);
    var s3 := s2.(threads := [Thread(n, Working)]);
    s := s3.(threads := [Thread(n, Exited)]);
    ReachesSelf(Next, s0);
    ReachesNext(Next, s0, s0, StartWorker(true), s1);
    ReachesNext(Next, s0, s1, EndStarting, s2);
    ReachesNext(Next, s0, s2, CreateRuntime(0, true), s3);
    ReachesNext(Next, s0, s3, EndWorker(0), s);
  }

  function Outcomes(names: seq<Name>, builds: Name -> bool, ok: bool): seq<Name> {
    if names == [] then []
    else Outcomes(names[..|names| - 1], builds, ok) + if builds(names[|names| - 1]) == ok then [names[|names| - 1]]
      else []
  }

  // They are the names whose build goes so, in their order.
  ghost predicate Filters(chosen: seq<Name>, names: seq<Name>, builds: Name -> bool, ok: bool) {
    && (forall n :: n in chosen <==> n in names && builds(n) == ok)
    && forall i, j :: 0 <= i < j < |names| && builds(names[i]) == builds(names[j]) == ok ==>
         exists p, q :: 0 <= p < q < |chosen| && chosen[p] == names[i] && chosen[q] == names[j]
  }

  lemma OutcomesSnoc(names: seq<Name>, builds: Name -> bool, n: Name, ok: bool)
    ensures Outcomes(names + [n], builds, ok) == Outcomes(names, builds, ok) + if builds(n) == ok then [n] else []
  {
    assert (names + [n])[..|names|] == names;
  }

  lemma FiltersSnoc(chosen: seq<Name>, names: seq<Name>, builds: Name -> bool, n: Name, ok: bool)
    requires Filters(chosen, names, builds, ok)
    ensures Filters(chosen + if builds(n) == ok then [n] else [], names + [n], builds, ok)
  {
    var more, all := names + [n], chosen + if builds(n) == ok then [n] else [];
    forall i, j | 0 <= i < j < |more| && builds(more[i]) == builds(more[j]) == ok
      ensures exists p, q :: 0 <= p < q < |all| && all[p] == more[i] && all[q] == more[j]
    {
      if j == |names| {
        assert names[i] in chosen;
        var p :| 0 <= p < |chosen| && chosen[p] == names[i];
        assert all[p] == more[i] && all[|chosen|] == more[j];
      } else {
        var p, q :| 0 <= p < q < |chosen| && chosen[p] == names[i] && chosen[q] == names[j];
        assert all[p] == more[i] && all[q] == more[j];
      }
    }
  }

  lemma {:induction false} OutcomesFilter(names: seq<Name>, builds: Name -> bool, ok: bool)
    ensures Filters(Outcomes(names, builds, ok), names, builds, ok)
    ensures |Outcomes(names, builds, true)| + |Outcomes(names, builds, false)| == |names|
  {
    if names != [] {
      var front, n := names[..|names| - 1], names[|names| - 1];
      OutcomesFilter(front, builds, ok);
      assert names == front + [n];
      OutcomesSnoc(front, builds, n, ok);
      FiltersSnoc(Outcomes(front, builds, ok), front, builds, n, ok);
    }
  }

  // One new thread for each of these names, and its handle for the last of a name.
  ghost predicate Spawns(chosen: seq<Name>, active: map<Name, nat>, threads: seq<Thread>) {
    && |threads| == |chosen| && (forall k :: 0 <= k < |chosen| ==> threads[k] == Thread(chosen[k], Spawned))
    && (forall n :: n in active <==> n in chosen) && forall n :: n in active ==> HasName(threads, active[n], n)
  }

  lemma SpawnedAre(names: seq<Name>, builds: Name -> bool, active: map<Name, nat>, threads: seq<Thread>)
    requires Spawns(Outcomes(names, builds, true), active, threads)
    ensures forall n :: n in active <==> n in names && builds(n)
    ensures forall n :: n in active ==> active[n] < |threads| && threads[active[n]] == Thread(n, Spawned)
    ensures |threads| + |Outcomes(names, builds, false)| == |names|
    ensures forall k :: 0 <= k < |threads| ==> builds(threads[k].name)
  {
    OutcomesFilter(names, builds, true);
    forall k | 0 <= k < |threads| ensures builds(threads[k].name) {
      assert threads[k].name in Outcomes(names, builds, true);
    }
  }

  lemma SpawnedInOrder(names: seq<Name>, builds: Name -> bool, active: map<Name, nat>, threads: seq<Thread>)
    requires Spawns(Outcomes(names, builds, true), active, threads)
    ensures forall i, j :: 0 <= i < j < |names| && builds(names[i]) && builds(names[j]) ==>
      exists p, q :: 0 <= p < q < |threads| && threads[p].name == names[i] && threads[q].name == names[j]
  {
    OutcomesFilter(names, builds, true);
    var chosen := Outcomes(names, builds, true);
    forall i, j | 0 <= i < j < |names| && builds(names[i]) && builds(names[j])
      ensures exists p, q :: 0 <= p < q < |threads| && threads[p].name == names[i] && threads[q].name == names[j]
    {
      var p, q :| 0 <= p < q < |chosen| && chosen[p] == names[i] && chosen[q] == names[j];
      assert threads[p].name == names[i] && threads[q].name == names[j];
    }
  }

  // The supervisor's own thread, when the others do nothing meanwhile but return.
  class Registry {
    var activeWorkers: map<Name, nat>
    var crashed: seq<Name>
    var threads: seq<Thread>
    var cancelled: bool
    ghost var unstarted: seq<Name>
    ghost var place: Place

    constructor (names: seq<Name>)
      ensures Value() == Start(names)
    {
      activeWorkers, crashed, threads, cancelled := map[], [], [], false;
      unstarted, place := names, Starting;
    }

    ghost function Value(): State
      reads this
    {
      State(unstarted, place, activeWorkers, crashed, threads, cancelled)
    }

    method SpawnWorker(name: Name) returns (handle: nat)
      modifies this`threads
      ensures threads == old(threads) + [Thread(name, Spawned)] && handle == |old(threads)|
    {
      handle := |threads|;
      threads := threads + [Thread(name, Spawned)];
    }

    // Builds every configured worker once; a name whose build fails goes to the channel,
    // any other one gets its thread and its place in the registry, in the names' order.
    method StartWorkers(names: seq<Name>, builds: Name -> bool)
      requires Value() == Start(names)
      modifies this
      ensures Reaches(Next, Start(names), Value()) && place == Idle && !cancelled
      ensures forall n :: n in crashed <==> n in names && !builds(n)
      ensures forall i, j :: 0 <= i < j < |names| && !builds(names[i]) && !builds(names[j]) ==>
        exists p, q :: 0 <= p < q < |crashed| && crashed[p] == names[i] && crashed[q] == names[j]
      ensures forall n :: n in activeWorkers <==> n in names && builds(n)
      ensures forall n :: n in activeWorkers ==>
        activeWorkers[n] < |threads| && threads[activeWorkers[n]] == Thread(n, Spawned)
      ensures forall i, j :: 0 <= i < j < |names| && builds(names[i]) && builds(names[j]) ==>
        exists p, q :: 0 <= p < q < |threads| && threads[p].name == names[i] && threads[q].name == names[j]
      ensures |threads| + |crashed| == |names| && forall k :: 0 <= k < |threads| ==> builds(threads[k].name)
    {
      BuildEach(names, builds);
      OutcomesFilter(names, builds, false);
      SpawnedAre(names, builds, activeWorkers, threads);
      SpawnedInOrder(names, builds, activeWorkers, threads);
      ghost var before := Value();
      place := Idle;
      ReachesNext(Next, Start(names), before, EndStarting, Value());
    }

    method BuildEach(names: seq<Name>, builds: Name -> bool)
      requires Value() == Start(names)
      modifies this
      ensures Reaches(Next, Start(names), Value()) && place == Starting && !cancelled && unstarted == []
      ensures crashed == Outcomes(names, builds, false)
      ensures Spawns(Outcomes(names, builds, true), activeWorkers, threads)
    {
      ReachesSelf(Next, Start(names));
      for i := 0 to |names|
        invariant Reaches(Next, Start(names), Value()) && place == Starting && !cancelled
        invariant unstarted == names[i..]
        invariant crashed == Outcomes(names[..i], builds, false)
        invariant Spawns(Outcomes(names[..i], builds, true), activeWorkers, threads)
      {
        ghost var before := Value();
        var name := names[i];
        assert names[..i + 1] == names[..i] + [name];
        OutcomesSnoc(names[..i], builds, name, true);
        OutcomesSnoc(names[..i], builds, name, false);
        BuildOne(name, builds(name), Outcomes(names[..i], builds, true));
        ReachesNext(Next, Start(names), before, StartWorker(builds(name)), Value());
      }
      assert names[..|names|] == names;
    }

    method BuildOne(name: Name, built: bool, ghost chosen: seq<Name>)
      requires unstarted != [] && unstarted[0] == name && place == Starting
      requires Spawns(chosen, activeWorkers, threads)
      modifies this
      ensures Next(old(Value()), StartWorker(built), Value())
      ensures unstarted == old(unstarted)[1..] && place == Starting && cancelled == old(cancelled)
      ensures crashed == old(crashed) + if built then [] else [name]
      ensures Spawns(chosen + if built then [name] else [], activeWorkers, threads)
    {
      unstarted := unstarted[1..];
      if built {
        var handle := SpawnWorker(name);
        activeWorkers := activeWorkers[name := handle];
      } else {
        crashed := crashed + [name];
      }
    }

    // Takes a name from the channel and builds its worker again.
    method Restart(ghost names: seq<Name>, builds: bool) returns (joined: Option<nat>)
      requires Distinct(names) && Reaches(Next, Start(names), Value()) && place == Idle && crashed != []
      modifies this
      ensures Reaches(Next, Start(names), Value()) && place == Idle && cancelled == old(cancelled)
      ensures var name := old(crashed)[0];
              && crashed == old(crashed)[1..] + (if !cancelled && !builds then [name] else [])
              && activeWorkers == (if !cancelled && builds then old(activeWorkers)[name := |old(threads)|]
                                   else old(activeWorkers))
              && |threads| == |old(threads)| + (if !cancelled && builds then 1 else 0)
              && (!cancelled && builds ==> threads[|old(threads)|] == Thread(name, Spawned))
              && joined == (if !cancelled && builds && name in old(activeWorkers)
                            then Some(old(activeWorkers)[name]) else None)
      ensures forall k: nat :: k < |old(threads)| ==>
        threads[k] == if joined == Some(k) then old(threads)[k].(status := Exited) else old(threads)[k]
      ensures joined.Some? ==>
        && joined.value < |old(threads)|
        && (old(threads)[joined.value].status.Reported? || old(threads)[joined.value].status.Exited?)
    {
      var name := crashed[0];
      joined := None;
      ghost var s0 := Value();
      crashed := crashed[1..];
      place := if cancelled then Idle else Building(name);
      ghost var s1 := Value();
      ReachesNext(Next, Start(names), s0, Receive, s1);
      if !cancelled { joined := RebuildWorker(names, name, builds); }
    }

    method RebuildWorker(ghost names: seq<Name>, name: Name, builds: bool) returns (joined: Option<nat>)
      requires Distinct(names) && Reaches(Next, Start(names), Value()) && place == Building(name)
      modifies this
      ensures Reaches(Next, Start(names), Value()) && place == Idle && cancelled == old(cancelled)
      ensures crashed == old(crashed) + if builds then [] else [name]
      ensures activeWorkers == if builds then old(activeWorkers)[name := |old(threads)|] else old(activeWorkers)
      ensures |threads| == |old(threads)| + if builds then 1 else 0
      ensures builds ==> threads[|old(threads)|] == Thread(name, Spawned)
      ensures forall k: nat :: k < |old(threads)| ==>
        threads[k] == if joined == Some(k) then old(threads)[k].(status := Exited) else old(threads)[k]
      ensures joined == if builds && name in old(activeWorkers) then Some(old(activeWorkers)[name]) else None
      ensures joined.Some? ==> HasEnd(old(threads), joined.value)
    {
      joined := None;
      ghost var s1 := Value();
      if !builds {
        crashed := crashed + [name];
        place := Idle;
        ReachesNext(Next, Start(names), s1, Rebuild(false), Value());
        return;
      }
      var handle := SpawnWorker(name);
      place := Replacing(name, handle);
      ghost var s2 := Value();
      ReachesNext(Next, Start(names), s1, Rebuild(true), s2);
      RegistryIsSound(names, s2);
      if name in activeWorkers {
        joined := Some(activeWorkers[name]);
        Join(names, activeWorkers[name]);
      }
      ghost var s3 := Value();
      activeWorkers := activeWorkers[name := handle];
      place := Idle;
      ReachesNext(Next, Start(names), s3, JoinOld, Value());
    }

    // Waits for a thread that has ended to return.
    method Join(ghost names: seq<Name>, handle: nat)
      requires Reaches(Next, Start(names), Value()) && HasEnd(threads, handle)
      modifies this`threads
      ensures Reaches(Next, Start(names), Value()) && threads == Returned(old(threads), handle)
    {
      ghost var s := Value();
      threads := Returned(threads, handle);
      if s.threads[handle].status.Reported? {
        ReachesNext(Next, Start(names), s, Return(handle), Value());
      } else {
        assert threads == s.threads;
      }
    }
  }
}

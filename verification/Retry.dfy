// Retrying one function, and retrying two functions in alternation.
module Retry {
  import opened Options
  import opened Backoff

  // An error may be both abortable and rate limited; abortable is looked at first.
  type Value

  type Error

  datatype Outcome = Good(value: Value) | Bad(error: Error, abortable: bool, rateLimit: bool)

  datatype RetryError = Aborted(error: Error) | MaxAttempts

  // What the k-th call of a function returns.
  type Function = nat -> Outcome

  predicate Decisive(o: Outcome) {
    o.Good? || o.abortable
  }

  predicate RateLimited(o: Outcome) {
    o.Bad? && !o.abortable && o.rateLimit
  }

  // The first of n calls that succeeds or aborts, or n.
  function FirstDecisive(f: Function, n: nat): (k: nat)
    ensures k <= n && (k < n ==> Decisive(f(k)))
  {
    if n == 0 then 0
    else
      var k := FirstDecisive(f, n - 1);
      if k < n - 1 || Decisive(f(n - 1)) then k else n
  }

  lemma {:induction false} NothingDecisiveBefore(f: Function, n: nat, j: nat)
    requires j < FirstDecisive(f, n)
    ensures !Decisive(f(j))
  {
    if n > 0 && j < n - 1 { NothingDecisiveBefore(f, n - 1, j); }
  }

  lemma {:induction false} DecisiveStays(f: Function, m: nat, n: nat)
    requires m <= n
    ensures FirstDecisive(f, m) < m ==> FirstDecisive(f, n) == FirstDecisive(f, m)
    ensures FirstDecisive(f, n) < m ==> FirstDecisive(f, n) == FirstDecisive(f, m)
    decreases n
  {
    if m < n { DecisiveStays(f, m, n - 1); }
  }

  // The result of two functions after so many calls of each, if none is called once it
  // has aborted: read off the positions of their first decisive calls. Call k of the
  // first function comes right before call k of the second.
  function ResultOf(first: Function, calls1: nat, second: Function, calls2: nat): Result<Value, RetryError> {
    var k1, k2 := FirstDecisive(first, calls1), FirstDecisive(second, calls2);
    if k1 < calls1 && first(k1).Good? && !(k2 < calls2 && second(k2).Good? && k2 < k1) then Ok(first(k1).value)
    else if k2 < calls2 && second(k2).Good? then Ok(second(k2).value)
    else if k1 < calls1 && k2 < calls2 then Err(Aborted(if k1 <= k2 then second(k2).error else first(k1).error))
    else Err(MaxAttempts)
  }

  // Attempt 2k is call k of the first function, attempt 2k + 1 call k of the second.
  function PairResult(first: Function, second: Function, n: nat): Result<Value, RetryError> {
    ResultOf(first, (n + 1) / 2, second, n / 2)
  }

  predicate Undecided(r: Result<Value, RetryError>) {
    r.Err? && r.error.MaxAttempts?
  }

  // More attempts do not change a result.
  lemma ResultStays(first: Function, m1: nat, n1: nat, second: Function, m2: nat, n2: nat)
    requires m1 <= n1 && m2 <= n2 <= n1 <= n2 + 1 && m2 <= m1 <= m2 + 1
    requires !Undecided(ResultOf(first, m1, second, m2))
    ensures ResultOf(first, n1, second, n2) == ResultOf(first, m1, second, m2)
  {
    DecisiveStays(first, m1, n1);
    DecisiveStays(second, m2, n2);
  }

  datatype Call = Call(step: AlternationStep, index: nat, pauseMs: nat)

  // The call that an attempt makes if it makes one. Its one pause is the rate limit's
  // if the same function's call before it was rate limited, and the backoff otherwise.
  function CallAt(f: Function, step: AlternationStep, k: nat, waitMs: nat, backoffMs: nat): Call {
    Call(step, k, if k > 0 && RateLimited(f(k - 1)) then waitMs else backoffMs)
  }

  function TurnCalls(f: Function, step: AlternationStep, k: nat, waitMs: nat, backoffMs: nat): seq<Call> {
    if FirstDecisive(f, k) < k then [] else [CallAt(f, step, k, waitMs, backoffMs)]
  }

  // Attempt i makes its call exactly if the result is still open and the function whose
  // turn it is has not aborted.
  predicate MakesCall(first: Function, second: Function, i: nat) {
    && Undecided(PairResult(first, second, i))
    && i / 2 == if i % 2 == 0 then FirstDecisive(first, i / 2) else FirstDecisive(second, i / 2)
  }

  function OutcomeAt(first: Function, second: Function, i: nat): Outcome {
    if i % 2 == 0 then first(i / 2) else second(i / 2)
  }

  function Made(first: Function, second: Function): nat -> bool {
    (i: nat) => MakesCall(first, second, i)
  }

  // The attempt that a call belongs to.
  function AttemptOf(c: Call): nat {
    2 * c.index + if c.step.First? then 0 else 1
  }

  function CallOfAttempt(first: Function, second: Function, waitMs: nat, pauses: nat -> nat, i: nat): (c: Call)
    ensures AttemptOf(c) == i
    ensures c.pauseMs == if i >= 2 && RateLimited(OutcomeAt(first, second, i - 2)) then waitMs else pauses(i)
  {
    if i % 2 == 0 then CallAt(first, First, i / 2, waitMs, pauses(i))
    else CallAt(second, Second, i / 2, waitMs, pauses(i))
  }

  ghost function Attempted(first: Function, second: Function, waitMs: nat, pauses: nat -> nat): nat -> Call {
    (i: nat) => CallOfAttempt(first, second, waitMs, pauses, i)
  }

  ghost function Selected(made: nat -> bool, call: nat -> Call, n: nat): seq<Call> {
    if n == 0 then [] else Selected(made, call, n - 1) + if made(n - 1) then [call(n - 1)] else []
  }

  ghost function CallsUpTo(first: Function, second: Function, waitMs: nat, pauses: nat -> nat, n: nat): seq<Call> {
    Selected(Made(first, second), Attempted(first, second, waitMs, pauses), n)
  }

  lemma PairResultStays(first: Function, second: Function, m: nat, n: nat)
    requires m <= n && !Undecided(PairResult(first, second, m))
    ensures PairResult(first, second, n) == PairResult(first, second, m)
  {
    ResultStays(first, (m + 1) / 2, (n + 1) / 2, second, m / 2, n / 2);
  }

  lemma NoCallAfter(first: Function, second: Function, waitMs: nat, pauses: nat -> nat, n: nat)
    requires n > 0 && !Undecided(PairResult(first, second, n - 1))
    ensures CallsUpTo(first, second, waitMs, pauses, n) == CallsUpTo(first, second, waitMs, pauses, n - 1)
  {
  }

  // Once the result is known, no further call is made.
  lemma {:induction false} CallsEnd(first: Function, second: Function, waitMs: nat, pauses: nat -> nat, m: nat, n: nat)
    requires m <= n && !Undecided(PairResult(first, second, m))
    ensures PairResult(first, second, n) == PairResult(first, second, m)
    ensures CallsUpTo(first, second, waitMs, pauses, n) == CallsUpTo(first, second, waitMs, pauses, m)
    decreases n
  {
    PairResultStays(first, second, m, n);
    if m < n {
      CallsEnd(first, second, waitMs, pauses, m, n - 1);
      NoCallAfter(first, second, waitMs, pauses, n);
    }
  }

  lemma CallsNext(first: Function, second: Function, waitMs: nat, pauses: nat -> nat, i: nat)
    requires Undecided(PairResult(first, second, i))
    ensures CallsUpTo(first, second, waitMs, pauses, i + 1) == CallsUpTo(first, second, waitMs, pauses, i) +
      if i % 2 == 0 then TurnCalls(first, First, i / 2, waitMs, pauses(i))
      else TurnCalls(second, Second, i / 2, waitMs, pauses(i))
  {
  }

  // What the loop knows of one function after some calls of it.
  ghost predicate Knows(f: Function, calls: nat, aborted: bool, limited: bool, lastAbortErr: Option<Error>) {
    var k := FirstDecisive(f, calls);
    && (aborted <==> k < calls)
    && (aborted ==> f(k).Bad? && lastAbortErr == Some(f(k).error))
    && (!aborted ==> (limited <==> calls > 0 && RateLimited(f(calls - 1))))
  }

  lemma KnowsUndecided(first: Function, calls1: nat, second: Function, calls2: nat,
                       aborted1: bool, limited1: bool, aborted2: bool, limited2: bool, lastAbortErr: Option<Error>)
    requires Knows(first, calls1, aborted1, limited1, lastAbortErr)
    requires Knows(second, calls2, aborted2, limited2, lastAbortErr)
    requires !(aborted1 && aborted2)
    ensures Undecided(ResultOf(first, calls1, second, calls2))
  {
  }

  datatype Flags = Flags(primaryAborted: bool, primaryLimited: bool, secondaryAborted: bool, secondaryLimited: bool,
                         lastAbortErr: Option<Error>)

  ghost predicate LoopInv(first: Function, calls1: nat, second: Function, calls2: nat, flags: Flags) {
    && Knows(first, calls1, flags.primaryAborted, flags.primaryLimited, flags.lastAbortErr)
    && Knows(second, calls2, flags.secondaryAborted, flags.secondaryLimited, flags.lastAbortErr)
    && !(flags.primaryAborted && flags.secondaryAborted)
  }

  // The primary function's turn; done is the loop's result if it ends here.
  method PrimaryTurn(first: Function, ghost second: Function, k: nat, waitMs: nat, duration: nat, flags: Flags)
    returns (done: Option<Result<Value, RetryError>>, flags': Flags, calls: seq<Call>)
    requires LoopInv(first, k, second, k, flags)
    ensures calls == TurnCalls(first, First, k, waitMs, duration)
    ensures done.None? ==> LoopInv(first, k + 1, second, k, flags')
    ensures done.Some? ==> !Undecided(done.value) && ResultOf(first, k + 1, second, k) == done.value
  {
    done, flags', calls := None, flags, [];
    if flags.primaryAborted {
      if flags.secondaryAborted { assert false; }
      return;
    }
    calls := [Call(First, k, if flags.primaryLimited then waitMs else duration)];
    flags' := flags'.(primaryLimited := false);
    match first(k) {
      case Good(value) => done := Some(Ok(value));
      case Bad(error, abortable, rateLimit) =>
        if abortable {
          flags' := flags'.(primaryAborted := true, lastAbortErr := Some(error));
          if flags'.secondaryAborted { done := Some(Err(Aborted(flags'.lastAbortErr.value))); }
        } else if rateLimit {
          flags' := flags'.(primaryLimited := true);
        }
    }
  }

  method SecondaryTurn(ghost first: Function, second: Function, k: nat, waitMs: nat, duration: nat, flags: Flags)
    returns (done: Option<Result<Value, RetryError>>, flags': Flags, calls: seq<Call>)
    requires LoopInv(first, k + 1, second, k, flags)
    ensures calls == TurnCalls(second, Second, k, waitMs, duration)
    ensures done.None? ==> LoopInv(first, k + 1, second, k + 1, flags')
    ensures done.Some? ==> !Undecided(done.value) && ResultOf(first, k + 1, second, k + 1) == done.value
  {
    done, flags', calls := None, flags, [];
    if flags.secondaryAborted {
      if flags.primaryAborted { assert false; }
      return;
    }
    calls := [Call(Second, k, if flags.secondaryLimited then waitMs else duration)];
    flags' := flags'.(secondaryLimited := false);
    match second(k) {
      case Good(value) => done := Some(Ok(value));
      case Bad(error, abortable, rateLimit) =>
        if abortable {
          flags' := flags'.(secondaryAborted := true, lastAbortErr := Some(error));
          if flags'.primaryAborted { done := Some(Err(Aborted(flags'.lastAbortErr.value))); }
        } else if rateLimit {
          flags' := flags'.(secondaryLimited := true);
        }
    }
  }

  // What the loop knows before attempt i.
  ghost predicate KnownAt(first: Function, second: Function, i: nat, flags: Flags) {
    LoopInv(first, (i + 1) / 2, second, i / 2, flags)
  }

  lemma LoopUndecided(first: Function, second: Function, i: nat, flags: Flags)
    requires KnownAt(first, second, i, flags)
    ensures Undecided(PairResult(first, second, i))
  {
    KnowsUndecided(first, (i + 1) / 2, second, i / 2, flags.primaryAborted, flags.primaryLimited,
                   flags.secondaryAborted, flags.secondaryLimited, flags.lastAbortErr);
  }

  lemma Halves(i: nat)
    ensures i % 2 == 0 ==> (i + 1) / 2 == i / 2 && (i + 1 + 1) / 2 == i / 2 + 1
    ensures i % 2 == 1 ==> (i + 1) / 2 == i / 2 + 1 && (i + 1 + 1) / 2 == i / 2 + 1
  {
  }

  method TakeTurn(first: Function, second: Function, i: nat, step: AlternationStep,
                  waitMs: nat, duration: nat, flags: Flags)
    returns (done: Option<Result<Value, RetryError>>, flags': Flags, calls: seq<Call>)
    requires KnownAt(first, second, i, flags) && step == if i % 2 == 0 then First else Second
    ensures calls == if i % 2 == 0 then TurnCalls(first, First, i / 2, waitMs, duration)
                     else TurnCalls(second, Second, i / 2, waitMs, duration)
    ensures done.None? ==> KnownAt(first, second, i + 1, flags')
    ensures done.Some? ==> !Undecided(done.value) && PairResult(first, second, i + 1) == done.value
  {
    Halves(i);
    match step {
      case First => done, flags', calls := PrimaryTurn(first, second, i / 2, waitMs, duration, flags);
      case Second => done, flags', calls := SecondaryTurn(first, second, i / 2, waitMs, duration, flags);
    }
  }

  datatype Params = Params(initialMs: nat, factor: Factor, maxMs: nat, rateLimitWaitMs: nat)

  // The pauses that the iterator yields, attempt by attempt.
  ghost predicate ArePauses(pauses: nat -> nat, p: Params, draws: nat -> nat) {
    forall i: nat :: pauses(i) == PauseAt(p.initialMs, p.factor, p.maxMs, draws, i)
  }

  // The iterator has yielded i times.
  ghost predicate Tracks(backoff: BackoffPairIterator, p: Params, draws: nat -> nat, i: nat)
    reads backoff
  {
    && backoff.factor == p.factor && backoff.maxDelayMs == Saturate(p.maxMs)
    && backoff.Value() == DelaysAt(p.initialMs, p.factor, draws, i)
  }

  method NextPause(backoff: BackoffPairIterator, ghost p: Params, draws: nat -> nat, i: nat, ghost pauses: nat -> nat)
    returns (duration: nat, step: AlternationStep)
    requires Tracks(backoff, p, draws, i) && ArePauses(pauses, p, draws)
    modifies backoff
    ensures Tracks(backoff, p, draws, i + 1)
    ensures duration == pauses(i) && step == if i % 2 == 0 then First else Second
  {
    Alternates(p.initialMs, p.factor, draws, i);
    duration, step := backoff.Next(draws(i));
  }

  // Attempt i of the loop.
  method Attempt(first: Function, second: Function, p: Params, draws: nat -> nat, i: nat,
                 ghost pauses: nat -> nat, backoff: BackoffPairIterator, flags: Flags, calls: seq<Call>)
    returns (done: Option<Result<Value, RetryError>>, flags': Flags, calls': seq<Call>)
    requires Tracks(backoff, p, draws, i) && ArePauses(pauses, p, draws)
    requires KnownAt(first, second, i, flags)
    requires calls == CallsUpTo(first, second, p.rateLimitWaitMs, pauses, i)
    modifies backoff
    ensures Tracks(backoff, p, draws, i + 1)
    ensures calls' == CallsUpTo(first, second, p.rateLimitWaitMs, pauses, i + 1)
    ensures done.None? ==> KnownAt(first, second, i + 1, flags')
    ensures done.Some? ==> !Undecided(done.value) && PairResult(first, second, i + 1) == done.value
  {
    LoopUndecided(first, second, i, flags);
    CallsNext(first, second, p.rateLimitWaitMs, pauses, i);
    var duration, step := NextPause(backoff, p, draws, i, pauses);
    var turn;
    done, flags', turn := TakeTurn(first, second, i, step, p.rateLimitWaitMs, duration, flags);
    calls' := calls + turn;
  }

  method RetryPair(first: Function, second: Function, p: Params, draws: nat -> nat, maxAttempts: nat,
                   ghost pauses: nat -> nat)
    returns (r: Result<Value, RetryError>, calls: seq<Call>)
    requires ArePauses(pauses, p, draws)
    ensures r == PairResult(first, second, maxAttempts)
    ensures calls == CallsUpTo(first, second, p.rateLimitWaitMs, pauses, maxAttempts)
  {
    var backoff := new BackoffPairIterator(p.initialMs, p.factor, p.maxMs);
    var flags: Flags := Flags(false, false, false, false, None);
    calls := [];
    for i := 0 to maxAttempts
      // "== true" keeps the two predicates folded
      invariant fresh(backoff) && Tracks(backoff, p, draws, i) == true
      invariant KnownAt(first, second, i, flags) == true
      invariant calls == CallsUpTo(first, second, p.rateLimitWaitMs, pauses, i)
    {
      var done: Option<Result<Value, RetryError>>;
      done, flags, calls := Attempt(first, second, p, draws, i, pauses, backoff, flags, calls);
      if done.Some? {
        CallsEnd(first, second, p.rateLimitWaitMs, pauses, i + 1, maxAttempts);
        r := done.value;
        return;
      }
    }
    LoopUndecided(first, second, maxAttempts, flags);
    r := Err(MaxAttempts);
  }

  ghost predicate Labelled(call: nat -> Call) {
    forall i: nat :: AttemptOf(call(i)) == i
  }

  lemma {:induction false} SelectedCall(made: nat -> bool, call: nat -> Call, n: nat, c: nat)
    requires Labelled(call) && c < |Selected(made, call, n)|
    ensures var i := AttemptOf(Selected(made, call, n)[c]); i < n && made(i) && Selected(made, call, n)[c] == call(i)
  {
    if c < |Selected(made, call, n - 1)| { SelectedCall(made, call, n - 1, c); }
  }

  lemma {:induction false} SelectedInOrder(made: nat -> bool, call: nat -> Call, n: nat, c: nat, d: nat)
    requires Labelled(call) && c < d < |Selected(made, call, n)|
    ensures AttemptOf(Selected(made, call, n)[c]) < AttemptOf(Selected(made, call, n)[d])
  {
    SelectedCall(made, call, n, c);
    if d < |Selected(made, call, n - 1)| {
      SelectedInOrder(made, call, n - 1, c, d);
    } else {
      SelectedCall(made, call, n - 1, c);
    }
  }

  lemma {:induction false} SelectedAttempt(made: nat -> bool, call: nat -> Call, n: nat, i: nat) returns (c: nat)
    requires i < n && made(i)
    ensures c < |Selected(made, call, n)| && Selected(made, call, n)[c] == call(i)
  {
    if i < n - 1 {
      c := SelectedAttempt(made, call, n - 1, i);
    } else {
      c := |Selected(made, call, n - 1)|;
    }
  }

  lemma AttemptsAreLabelled(first: Function, second: Function, waitMs: nat, pauses: nat -> nat)
    ensures Labelled(Attempted(first, second, waitMs, pauses))
  {
  }

  // Call k of the first function is made at attempt 2k and call k of the second one at
  // attempt 2k + 1. Its one pause is the rate limit's exactly if the same function's
  // call before it was rate limited, and its attempt's backoff otherwise. The calls are
  // in the order of their attempts, none of them made twice.
  lemma EachCall(first: Function, second: Function, waitMs: nat, pauses: nat -> nat, n: nat, c: nat)
    requires c < |CallsUpTo(first, second, waitMs, pauses, n)|
    ensures var call := CallsUpTo(first, second, waitMs, pauses, n)[c];
            var i := AttemptOf(call);
            && i < n && MakesCall(first, second, i) && call == CallOfAttempt(first, second, waitMs, pauses, i)
            && call.pauseMs == if i >= 2 && RateLimited(OutcomeAt(first, second, i - 2)) then waitMs else pauses(i)
    ensures forall d :: c < d < |CallsUpTo(first, second, waitMs, pauses, n)| ==>
      AttemptOf(CallsUpTo(first, second, waitMs, pauses, n)[c])
      < AttemptOf(CallsUpTo(first, second, waitMs, pauses, n)[d])
  {
    var made, call := Made(first, second), Attempted(first, second, waitMs, pauses);
    AttemptsAreLabelled(first, second, waitMs, pauses);
    SelectedCall(made, call, n, c);
    forall d | c < d < |Selected(made, call, n)|
      ensures AttemptOf(Selected(made, call, n)[c]) < AttemptOf(Selected(made, call, n)[d])
    {
      SelectedInOrder(made, call, n, c, d);
    }
  }

  // An attempt that should make its call does.
  lemma EachAttempt(first: Function, second: Function, waitMs: nat, pauses: nat -> nat, n: nat, i: nat) returns (c: nat)
    requires i < n && MakesCall(first, second, i)
    ensures c < |CallsUpTo(first, second, waitMs, pauses, n)|
      && AttemptOf(CallsUpTo(first, second, waitMs, pauses, n)[c]) == i
  {
    AttemptsAreLabelled(first, second, waitMs, pauses);
    c := SelectedAttempt(Made(first, second), Attempted(first, second, waitMs, pauses), n, i);
  }

  // No call comes after a decisive one of the same function: what has aborted is not
  // called again.
  lemma AbortedStaysAborted(first: Function, second: Function, i: nat, j: nat)
    requires MakesCall(first, second, i) && j < i / 2
    ensures !Decisive(if i % 2 == 0 then first(j) else second(j))
  {
    if i % 2 == 0 { NothingDecisiveBefore(first, i / 2, j); } else { NothingDecisiveBefore(second, i / 2, j); }
  }

  function CountOf(calls: seq<Call>, step: AlternationStep): nat {
    if calls == [] then 0
    else CountOf(calls[..|calls| - 1], step) + if calls[|calls| - 1].step == step then 1 else 0
  }

  lemma CountOfNext(calls: seq<Call>, call: Call, step: AlternationStep)
    ensures CountOf(calls + [call], step) == CountOf(calls, step) + if call.step == step then 1 else 0
  {
    assert (calls + [call])[..|calls|] == calls;
  }

  predicate MakesCallOf(made: nat -> bool, step: AlternationStep, i: nat) {
    made(i) && step == if i % 2 == 0 then First else Second
  }

  lemma SelectedCount(made: nat -> bool, call: nat -> Call, i: nat, step: AlternationStep)
    requires AttemptOf(call(i)) == i
    ensures CountOf(Selected(made, call, i + 1), step) ==
      CountOf(Selected(made, call, i), step) + if MakesCallOf(made, step, i) then 1 else 0
  {
    var before := Selected(made, call, i);
    if made(i) {
      assert Selected(made, call, i + 1) == before + [call(i)];
      CountOfNext(before, call(i), step);
    } else {
      assert Selected(made, call, i + 1) == before;
    }
  }

  // How many of the first n attempts make a call of one function.
  function MadeCalls(made: nat -> bool, step: AlternationStep, n: nat): nat {
    if n == 0 then 0 else MadeCalls(made, step, n - 1) + if MakesCallOf(made, step, n - 1) then 1 else 0
  }

  lemma {:induction false} CountOfSelected(made: nat -> bool, call: nat -> Call, n: nat, step: AlternationStep)
    requires Labelled(call)
    ensures CountOf(Selected(made, call, n), step) == MadeCalls(made, step, n)
  {
    if n > 0 {
      CountOfSelected(made, call, n - 1, step);
      assert AttemptOf(call(n - 1)) == n - 1;
      SelectedCount(made, call, n - 1, step);
    }
  }

  lemma {:induction false} MadeBounds(made: nat -> bool, n: nat)
    ensures MadeCalls(made, First, n) <= (n + 1) / 2 && MadeCalls(made, Second, n) <= n / 2
  {
    if n > 0 { MadeBounds(made, n - 1); }
  }

  // Of n attempts, at most the larger half call the first function and at most the
  // smaller half the second one.
  lemma CallBounds(first: Function, second: Function, waitMs: nat, pauses: nat -> nat, n: nat)
    ensures var calls := CallsUpTo(first, second, waitMs, pauses, n);
            CountOf(calls, First) <= (n + 1) / 2 && CountOf(calls, Second) <= n / 2
  {
    AttemptsAreLabelled(first, second, waitMs, pauses);
    CountOfSelected(Made(first, second), Attempted(first, second, waitMs, pauses), n, First);
    CountOfSelected(Made(first, second), Attempted(first, second, waitMs, pauses), n, Second);
    MadeBounds(Made(first, second), n);
  }

  // A function that is asked for m calls makes them all, or those up to its first
  // decisive one.
  function Asked(f: Function, m: nat): nat {
    if FirstDecisive(f, m) < m then FirstDecisive(f, m) + 1 else m
  }

  lemma AskedNext(f: Function, m: nat)
    ensures Asked(f, m + 1) == Asked(f, m) + if FirstDecisive(f, m) == m then 1 else 0
  {
  }

  lemma FirstAskedNext(first: Function, second: Function, i: nat)
    requires Undecided(PairResult(first, second, i))
    ensures Asked(first, (i + 2) / 2) ==
      Asked(first, (i + 1) / 2) + if MakesCallOf(Made(first, second), First, i) then 1 else 0
  {
    if i % 2 == 0 { AskedNext(first, i / 2); }
    Halves(i);
  }

  lemma SecondAskedNext(first: Function, second: Function, i: nat)
    requires Undecided(PairResult(first, second, i))
    ensures Asked(second, (i + 1) / 2) ==
      Asked(second, i / 2) + if MakesCallOf(Made(first, second), Second, i) then 1 else 0
  {
    if i % 2 == 1 { AskedNext(second, i / 2); }
    Halves(i);
  }

  lemma {:induction false} MadeAdds(made: nat -> bool, step: AlternationStep, total: nat -> nat, n: nat)
    requires total(0) == 0
    requires forall i: nat :: i < n ==> total(i + 1) == total(i) + if MakesCallOf(made, step, i) then 1 else 0
    ensures MadeCalls(made, step, n) == total(n)
  {
    if n > 0 {
      MadeAdds(made, step, total, n - 1);
      assert total(n - 1 + 1) == total(n - 1) + if MakesCallOf(made, step, n - 1) then 1 else 0;
    }
  }

  lemma OpenBefore(first: Function, second: Function, i: nat, n: nat)
    requires i <= n && Undecided(PairResult(first, second, n))
    ensures Undecided(PairResult(first, second, i))
  {
    if !Undecided(PairResult(first, second, i)) { PairResultStays(first, second, i, n); }
  }

  function FirstTotal(first: Function): nat -> nat {
    (i: nat) => Asked(first, (i + 1) / 2)
  }

  lemma FirstAddsAt(first: Function, second: Function, i: nat, n: nat)
    requires i < n && Undecided(PairResult(first, second, n))
    ensures FirstTotal(first)(i + 1) ==
      FirstTotal(first)(i) + if MakesCallOf(Made(first, second), First, i) then 1 else 0
  {
    OpenBefore(first, second, i, n);
    FirstAskedNext(first, second, i);
  }

  lemma FirstAdds(first: Function, second: Function, n: nat)
    requires Undecided(PairResult(first, second, n))
    ensures MadeCalls(Made(first, second), First, n) == FirstTotal(first)(n)
  {
    forall i: nat | i < n
      ensures FirstTotal(first)(i + 1) ==
        FirstTotal(first)(i) + if MakesCallOf(Made(first, second), First, i) then 1 else 0
    {
      FirstAddsAt(first, second, i, n);
    }
    MadeAdds(Made(first, second), First, FirstTotal(first), n);
  }

  function SecondTotal(second: Function): nat -> nat {
    (i: nat) => Asked(second, i / 2)
  }

  lemma SecondAddsAt(first: Function, second: Function, i: nat, n: nat)
    requires i < n && Undecided(PairResult(first, second, n))
    ensures SecondTotal(second)(i + 1) ==
      SecondTotal(second)(i) + if MakesCallOf(Made(first, second), Second, i) then 1 else 0
  {
    OpenBefore(first, second, i, n);
    SecondAskedNext(first, second, i);
  }

  lemma SecondAdds(first: Function, second: Function, n: nat)
    requires Undecided(PairResult(first, second, n))
    ensures MadeCalls(Made(first, second), Second, n) == SecondTotal(second)(n)
  {
    forall i: nat | i < n
      ensures SecondTotal(second)(i + 1) ==
        SecondTotal(second)(i) + if MakesCallOf(Made(first, second), Second, i) then 1 else 0
    {
      SecondAddsAt(first, second, i, n);
    }
    MadeAdds(Made(first, second), Second, SecondTotal(second), n);
  }

  // While the result is open, each function has been called at its every turn that came
  // before it aborted.
  lemma FirstCount(first: Function, second: Function, waitMs: nat, pauses: nat -> nat, n: nat)
    requires Undecided(PairResult(first, second, n))
    ensures CountOf(CallsUpTo(first, second, waitMs, pauses, n), First) == Asked(first, (n + 1) / 2)
  {
    AttemptsAreLabelled(first, second, waitMs, pauses);
    CountOfSelected(Made(first, second), Attempted(first, second, waitMs, pauses), n, First);
    FirstAdds(first, second, n);
  }

  lemma SecondCount(first: Function, second: Function, waitMs: nat, pauses: nat -> nat, n: nat)
    requires Undecided(PairResult(first, second, n))
    ensures CountOf(CallsUpTo(first, second, waitMs, pauses, n), Second) == Asked(second, n / 2)
  {
    AttemptsAreLabelled(first, second, waitMs, pauses);
    CountOfSelected(Made(first, second), Attempted(first, second, waitMs, pauses), n, Second);
    SecondAdds(first, second, n);
  }

  // The attempt that decides makes its call, and the call's outcome is the result: its
  // value on success, and its error if it is the later one of the two functions' aborts.
  lemma DecidingCall(first: Function, second: Function, i: nat)
    requires Undecided(PairResult(first, second, i)) && !Undecided(PairResult(first, second, i + 1))
    ensures MakesCall(first, second, i)
    ensures var outcome := OutcomeAt(first, second, i);
            PairResult(first, second, i + 1) == if outcome.Good? then Ok(outcome.value) else Err(Aborted(outcome.error))
  {
    Halves(i);
  }

  lemma OpenAtFirst(first: Function, second: Function)
    ensures Undecided(PairResult(first, second, 0))
  {
  }

  lemma {:induction false} DecidingAttempt(first: Function, second: Function, n: nat) returns (i: nat)
    requires !Undecided(PairResult(first, second, n))
    ensures i < n && Undecided(PairResult(first, second, i)) && !Undecided(PairResult(first, second, i + 1))
  {
    OpenAtFirst(first, second);
    if Undecided(PairResult(first, second, n - 1)) {
      i := n - 1;
    } else {
      i := DecidingAttempt(first, second, n - 1);
    }
  }

  // A result other than running out of attempts is the outcome of the last call.
  lemma LastCallDecides(first: Function, second: Function, waitMs: nat, pauses: nat -> nat, n: nat)
    requires !Undecided(PairResult(first, second, n))
    ensures var calls := CallsUpTo(first, second, waitMs, pauses, n);
            && calls != []
            && var outcome := OutcomeAt(first, second, AttemptOf(calls[|calls| - 1]));
               PairResult(first, second, n) == if outcome.Good? then Ok(outcome.value) else Err(Aborted(outcome.error))
  {
    var i := DecidingAttempt(first, second, n);
    CallsEnd(first, second, waitMs, pauses, i + 1, n);
    DecidingCall(first, second, i);
    AttemptsAreLabelled(first, second, waitMs, pauses);
  }

  // No call follows one that succeeds.
  lemma SuccessIsLast(first: Function, second: Function, i: nat, j: nat)
    requires MakesCall(first, second, i) && OutcomeAt(first, second, i).Good? && i < j
    ensures !MakesCall(first, second, j)
  {
    Halves(i);
    PairResultStays(first, second, i + 1, j);
  }

  function TotalPause(calls: seq<Call>): nat {
    if calls == [] then 0 else TotalPause(calls[..|calls| - 1]) + calls[|calls| - 1].pauseMs
  }

  lemma {:induction false} TotalPauseBound(calls: seq<Call>, most: nat)
    requires forall c :: 0 <= c < |calls| ==> calls[c].pauseMs <= most
    ensures TotalPause(calls) <= |calls| * most
  {
    if calls != [] { TotalPauseBound(calls[..|calls| - 1], most); }
  }

  // All the sleeping together is at most so many times the longest pause.
  lemma TotalWait(first: Function, second: Function, p: Params, draws: nat -> nat, pauses: nat -> nat, n: nat)
    requires ArePauses(pauses, p, draws)
    ensures var calls := CallsUpTo(first, second, p.rateLimitWaitMs, pauses, n);
            TotalPause(calls) <=
              |calls| * if Saturate(p.maxMs) > p.rateLimitWaitMs then Saturate(p.maxMs) else p.rateLimitWaitMs
  {
    var calls := CallsUpTo(first, second, p.rateLimitWaitMs, pauses, n);
    var most := if Saturate(p.maxMs) > p.rateLimitWaitMs then Saturate(p.maxMs) else p.rateLimitWaitMs;
    forall c | 0 <= c < |calls| ensures calls[c].pauseMs <= most {
      EachCall(first, second, p.rateLimitWaitMs, pauses, n, c);
    }
    TotalPauseBound(calls, most);
  }

  // One function.
  function SingleResult(f: Function, n: nat): Result<Value, RetryError> {
    var k := FirstDecisive(f, n);
    if k == n then Err(MaxAttempts)
    else match f(k)
      case Good(value) => Ok(value)
      case Bad(error, _, _) => Err(Aborted(error))
  }

  // The sleep before a call, and the one after it: the rate limit's wait, or none.
  datatype Sleep = Sleep(beforeMs: nat, afterMs: nat)

  // A success or an abort is the last call and the result; otherwise every attempt makes
  // its call. Each call comes after its backoff, and a rate limited one, the last
  // included, is followed by the wait.
  method RetryFn(f: Function, waitMs: nat, pauses: nat -> nat, maxAttempts: nat)
    returns (r: Result<Value, RetryError>, calls: nat, sleeps: seq<Sleep>)
    ensures r == SingleResult(f, maxAttempts) && calls == Asked(f, maxAttempts)
    ensures calls <= maxAttempts && forall j :: 0 <= j < calls - 1 ==> f(j).Bad? && !f(j).abortable
    ensures calls > 0 && f(calls - 1).Good? ==> r == Ok(f(calls - 1).value)
    ensures calls > 0 && f(calls - 1).Bad? && f(calls - 1).abortable ==> r == Err(Aborted(f(calls - 1).error))
    ensures (calls > 0 ==> f(calls - 1).Bad? && !f(calls - 1).abortable) ==>
      r == Err(MaxAttempts) && calls == maxAttempts
    ensures |sleeps| == calls && forall k :: 0 <= k < calls ==>
      && sleeps[k].beforeMs == pauses(k)
      && sleeps[k].afterMs == if f(k).Bad? && !f(k).abortable && f(k).rateLimit then waitMs else 0
  {
    calls, sleeps := 0, [];
    for i := 0 to maxAttempts
      invariant calls == i == FirstDecisive(f, i) == |sleeps|
      invariant forall k :: 0 <= k < i ==>
        && f(k).Bad? && !f(k).abortable && sleeps[k].beforeMs == pauses(k)
        && sleeps[k].afterMs == if f(k).rateLimit then waitMs else 0
    {
      sleeps := sleeps + [Sleep(pauses(i), 0)];
      calls := i + 1;
      match f(i) {
        case Good(value) =>
          DecisiveStays(f, i + 1, maxAttempts);
          r := Ok(value);
          return;
        case Bad(error, abortable, rateLimit) =>
          if abortable {
            DecisiveStays(f, i + 1, maxAttempts);
            r := Err(Aborted(error));
            return;
          } else if rateLimit {
            sleeps := sleeps[i := sleeps[i].(afterMs := waitMs)];
          }
      }
    }
    r := Err(MaxAttempts);
  }

  // A pair whose second function only ever fails without aborting does at its 2n
  // attempts what the first function does on its own at n, except that an abort does
  // not end it.
  lemma PairOfOne(first: Function, second: Function, n: nat)
    requires forall k: nat :: !Decisive(second(k))
    ensures PairResult(first, second, 2 * n) ==
      if SingleResult(first, n).Ok? then SingleResult(first, n) else Err(MaxAttempts)
  {
    assert (2 * n + 1) / 2 == n && 2 * n / 2 == n;
  }
}

// What the list of calls of a retried pair says, in terms of the two functions alone.
module RetryCalls {
  import opened Options
  import opened Backoff
  import opened Retry

  lemma OutcomeOf(first: Function, second: Function, step: AlternationStep, k: nat, i: nat)
    requires i == 2 * k + if step.First? then 0 else 1
    ensures OutcomeAt(first, second, i) == if step.First? then first(k) else second(k)
  {
    assert i / 2 == k && (i % 2 == 0 <==> step.First?);
  }

  // The attempt, the function and the outcome of each call.
  lemma CallIs(first: Function, second: Function, waitMs: nat, pauses: nat -> nat, n: nat, c: nat) returns (i: nat)
    requires c < |CallsUpTo(first, second, waitMs, pauses, n)|
    ensures var call := CallsUpTo(first, second, waitMs, pauses, n)[c];
            && i == 2 * call.index + (if call.step.First? then 0 else 1) && i < n && MakesCall(first, second, i)
            && call == CallOfAttempt(first, second, waitMs, pauses, i)
            && OutcomeAt(first, second, i) == (if call.step.First? then first(call.index) else second(call.index))
  {
    EachCall(first, second, waitMs, pauses, n, c);
    var call := CallsUpTo(first, second, waitMs, pauses, n)[c];
    i := AttemptOf(call);
    OutcomeOf(first, second, call.step, call.index, i);
  }

  // Call k of the first function is made at attempt 2k and call k of the second one at
  // attempt 2k + 1, in this order, none of them twice. A call's one pause is the rate
  // limit's exactly if the same function's call before it was rate limited, and its
  // attempt's backoff otherwise.
  lemma EachCallIs(first: Function, second: Function, waitMs: nat, pauses: nat -> nat, n: nat, c: nat)
    requires c < |CallsUpTo(first, second, waitMs, pauses, n)|
    ensures var call := CallsUpTo(first, second, waitMs, pauses, n)[c];
            var i := 2 * call.index + if call.step.First? then 0 else 1;
            var limited := call.index > 0 &&
                           var o := if call.step.First? then first(call.index - 1) else second(call.index - 1);
                           o.Bad? && !o.abortable && o.rateLimit;
            i < n && call.pauseMs == if limited then waitMs else pauses(i)
    ensures forall d :: c < d < |CallsUpTo(first, second, waitMs, pauses, n)| ==>
      var call, later := CallsUpTo(first, second, waitMs, pauses, n)[c], CallsUpTo(first, second, waitMs, pauses, n)[d];
      call.index < later.index || (call.index == later.index && call.step.First? && later.step.Second?)
  {
    var i := CallIs(first, second, waitMs, pauses, n, c);
    EachCall(first, second, waitMs, pauses, n, c);
    var call := CallsUpTo(first, second, waitMs, pauses, n)[c];
    if call.index > 0 { OutcomeOf(first, second, call.step, call.index - 1, i - 2); }
  }

  // No call follows a success, and none of the same function follows an abort.
  lemma NoCallFollows(first: Function, second: Function, waitMs: nat, pauses: nat -> nat, n: nat, c: nat, d: nat)
    requires c < d < |CallsUpTo(first, second, waitMs, pauses, n)|
    ensures var call, later := CallsUpTo(first, second, waitMs, pauses, n)[c],
              CallsUpTo(first, second, waitMs, pauses, n)[d];
            var outcome := if call.step.First? then first(call.index) else second(call.index);
            outcome.Bad? && (outcome.abortable ==> later.step != call.step)
  {
    var i := CallIs(first, second, waitMs, pauses, n, c);
    var j := CallIs(first, second, waitMs, pauses, n, d);
    EachCallIs(first, second, waitMs, pauses, n, c);
    if OutcomeAt(first, second, i).Good? { SuccessIsLast(first, second, i, j); }
    if i % 2 == j % 2 { AbortedStaysAborted(first, second, j, i / 2); }
  }

  lemma SuccessDecides(first: Function, second: Function, i: nat)
    requires MakesCall(first, second, i) && OutcomeAt(first, second, i).Good?
    ensures PairResult(first, second, i + 1) == Ok(OutcomeAt(first, second, i).value)
  {
    Halves(i);
  }

  // A success is the last call, and its value is the result.
  lemma SuccessIsResult(first: Function, second: Function, waitMs: nat, pauses: nat -> nat, n: nat, c: nat)
    requires c < |CallsUpTo(first, second, waitMs, pauses, n)|
    requires var call := CallsUpTo(first, second, waitMs, pauses, n)[c];
             (if call.step.First? then first(call.index) else second(call.index)).Good?
    ensures var call := CallsUpTo(first, second, waitMs, pauses, n)[c];
            var outcome := if call.step.First? then first(call.index) else second(call.index);
            PairResult(first, second, n) == Ok(outcome.value)
    ensures c == |CallsUpTo(first, second, waitMs, pauses, n)| - 1
  {
    var i := CallIs(first, second, waitMs, pauses, n, c);
    SuccessDecides(first, second, i);
    PairResultStays(first, second, i + 1, n);
    if c < |CallsUpTo(first, second, waitMs, pauses, n)| - 1 {
      NoCallFollows(first, second, waitMs, pauses, n, c, c + 1);
    }
  }

  lemma AbortsDecide(first: Function, second: Function, i: nat, j: nat)
    requires i < j && MakesCall(first, second, i) && MakesCall(first, second, j)
    requires OutcomeAt(first, second, i).Bad? && OutcomeAt(first, second, i).abortable
    requires OutcomeAt(first, second, j).Bad? && OutcomeAt(first, second, j).abortable
    ensures PairResult(first, second, j + 1) == Err(Aborted(OutcomeAt(first, second, j).error))
  {
    Halves(i);
    Halves(j);
    if i % 2 == j % 2 { AbortedStaysAborted(first, second, j, i / 2); }
    var f := if i % 2 == 0 then first else second;
    var m := if j % 2 == 0 then j / 2 else j / 2 + 1;
    DecisiveStays(f, i / 2 + 1, m);
  }

  // When both functions have aborted, the later of the two calls is the last one, and its
  // error is the result.
  lemma AbortsAreResult(first: Function, second: Function, waitMs: nat, pauses: nat -> nat, n: nat, c: nat, d: nat)
    requires c < d < |CallsUpTo(first, second, waitMs, pauses, n)|
    requires var call := CallsUpTo(first, second, waitMs, pauses, n)[c];
             var outcome := if call.step.First? then first(call.index) else second(call.index);
             outcome.Bad? && outcome.abortable
    requires var call := CallsUpTo(first, second, waitMs, pauses, n)[d];
             var outcome := if call.step.First? then first(call.index) else second(call.index);
             outcome.Bad? && outcome.abortable
    ensures var call := CallsUpTo(first, second, waitMs, pauses, n)[d];
            var outcome := if call.step.First? then first(call.index) else second(call.index);
            PairResult(first, second, n) == Err(Aborted(outcome.error))
    ensures d == |CallsUpTo(first, second, waitMs, pauses, n)| - 1
  {
    var i := CallIs(first, second, waitMs, pauses, n, c);
    var j := CallIs(first, second, waitMs, pauses, n, d);
    EachCallIs(first, second, waitMs, pauses, n, c);
    AbortsDecide(first, second, i, j);
    PairResultStays(first, second, j + 1, n);
    NoCallAfterDecision(first, second, waitMs, pauses, n, d, j);
  }

  lemma NoCallAfterDecision(first: Function, second: Function, waitMs: nat, pauses: nat -> nat, n: nat, d: nat, j: nat)
    requires d < |CallsUpTo(first, second, waitMs, pauses, n)|
    requires AttemptOf(CallsUpTo(first, second, waitMs, pauses, n)[d]) == j
    requires !Undecided(PairResult(first, second, j + 1))
    ensures d == |CallsUpTo(first, second, waitMs, pauses, n)| - 1
  {
    if d < |CallsUpTo(first, second, waitMs, pauses, n)| - 1 {
      EachCall(first, second, waitMs, pauses, n, d);
      EachCall(first, second, waitMs, pauses, n, d + 1);
      PairResultStays(first, second, j + 1, AttemptOf(CallsUpTo(first, second, waitMs, pauses, n)[d + 1]));
    }
  }

  // The call at which a function was decided was made.
  lemma DecisiveCallMade(first: Function, second: Function, i: nat) returns (j: nat)
    requires var f := if i % 2 == 0 then first else second; FirstDecisive(f, i / 2) < i / 2
    requires Undecided(PairResult(first, second, i)) || PairResult(first, second, i).Err?
    ensures j < i && j % 2 == i % 2 && MakesCall(first, second, j)
    ensures Decisive(OutcomeAt(first, second, j))
  {
    var f := if i % 2 == 0 then first else second;
    var k := FirstDecisive(f, i / 2);
    j := 2 * k + i % 2;
    DecisiveStays(f, k, i / 2);
    Halves(i);
    Halves(j);
    if !Undecided(PairResult(first, second, j)) { PairResultStays(first, second, j, i); }
  }

  // An attempt makes its call unless a call before it succeeded, or one of the same
  // function aborted.
  lemma EachAttemptCalls(first: Function, second: Function, waitMs: nat, pauses: nat -> nat, n: nat, i: nat)
    returns (c: nat)
    requires i < n
    requires forall d :: 0 <= d < |CallsUpTo(first, second, waitMs, pauses, n)| ==>
      var call := CallsUpTo(first, second, waitMs, pauses, n)[d];
      var outcome := if call.step.First? then first(call.index) else second(call.index);
      2 * call.index + (if call.step.First? then 0 else 1) < i ==>
        outcome.Bad? && (outcome.abortable ==> call.step != if i % 2 == 0 then First else Second)
    ensures c < |CallsUpTo(first, second, waitMs, pauses, n)|
    ensures var call := CallsUpTo(first, second, waitMs, pauses, n)[c];
            call.index == i / 2 && call.step == if i % 2 == 0 then First else Second
  {
    if !MakesCall(first, second, i) {
      var j: nat;
      if PairResult(first, second, i).Ok? {
        j := DecidingAttempt(first, second, i);
        DecidingCall(first, second, j);
        PairResultStays(first, second, j + 1, i);
      } else {
        Halves(i);
        j := DecisiveCallMade(first, second, i);
      }
      var d := EachAttempt(first, second, waitMs, pauses, n, j);
      var j' := CallIs(first, second, waitMs, pauses, n, d);
      assert false;
    }
    c := EachAttempt(first, second, waitMs, pauses, n, i);
    var i' := CallIs(first, second, waitMs, pauses, n, c);
  }

  // A result is the value of the last call, which succeeded.
  lemma OkIsLastCall(first: Function, second: Function, waitMs: nat, pauses: nat -> nat, n: nat)
    requires PairResult(first, second, n).Ok?
    ensures var calls := CallsUpTo(first, second, waitMs, pauses, n);
            && calls != []
            && var last := calls[|calls| - 1];
               var outcome := if last.step.First? then first(last.index) else second(last.index);
               outcome == Good(PairResult(first, second, n).value)
  {
    LastCallDecides(first, second, waitMs, pauses, n);
    var i := CallIs(first, second, waitMs, pauses, n, |CallsUpTo(first, second, waitMs, pauses, n)| - 1);
  }

  lemma AbortMade(first: Function, second: Function, waitMs: nat, pauses: nat -> nat, n: nat, i: nat) returns (c: nat)
    requires PairResult(first, second, n).Err? && !Undecided(PairResult(first, second, n)) && n <= i <= n + 1
    ensures c < |CallsUpTo(first, second, waitMs, pauses, n)|
    ensures var call := CallsUpTo(first, second, waitMs, pauses, n)[c];
            var outcome := if call.step.First? then first(call.index) else second(call.index);
            call.step == (if i % 2 == 0 then First else Second) && outcome.Bad? && outcome.abortable
  {
    PairResultStays(first, second, n, i);
    Halves(n);
    var j := DecisiveCallMade(first, second, i);
    c := EachAttempt(first, second, waitMs, pauses, n, j);
    var j' := CallIs(first, second, waitMs, pauses, n, c);
    if OutcomeAt(first, second, j).Good? { SuccessIsResult(first, second, waitMs, pauses, n, c); }
  }

  // An aborted result needs an abort of both functions.
  lemma AbortedNeedsBoth(first: Function, second: Function, waitMs: nat, pauses: nat -> nat, n: nat)
    returns (c: nat, d: nat)
    requires PairResult(first, second, n).Err? && !Undecided(PairResult(first, second, n))
    ensures c < d < |CallsUpTo(first, second, waitMs, pauses, n)|
    ensures var call := CallsUpTo(first, second, waitMs, pauses, n)[c];
            var outcome := if call.step.First? then first(call.index) else second(call.index);
            outcome.Bad? && outcome.abortable
    ensures var call := CallsUpTo(first, second, waitMs, pauses, n)[d];
            var outcome := if call.step.First? then first(call.index) else second(call.index);
            outcome.Bad? && outcome.abortable
  {
    c := AbortMade(first, second, waitMs, pauses, n, n);
    d := AbortMade(first, second, waitMs, pauses, n, n + 1);
    if d < c { c, d := d, c; }
  }
}

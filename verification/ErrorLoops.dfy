// The main loops that give up after too many errors in a row, and the health check.
module ErrorLoops {
  import opened Options

  const U32_MAX: nat := 0xFFFF_FFFF
  const USIZE_MAX: nat := 0xFFFF_FFFF_FFFF_FFFF

  function SaturatingAdd(count: nat, max: nat): nat {
    if count >= max then max else count + 1
  }

  // The ticks that have failed without a break up to now.
  function FailingSuffix(fails: nat -> bool, n: nat): nat {
    if n > 0 && fails(n - 1) then FailingSuffix(fails, n - 1) + 1 else 0
  }

  lemma {:induction false} SuffixIs(fails: nat -> bool, n: nat, m: nat)
    ensures FailingSuffix(fails, n) >= m <==> m <= n && forall j: nat :: n - m <= j < n ==> fails(j)
  {
    if n > 0 && m > 0 {
      SuffixIs(fails, n - 1, m - 1);
    }
  }

  // Tick t is the last of m failing ones in a row.
  predicate EndsRun(fails: nat -> bool, t: nat, m: nat) {
    m <= t + 1 && forall j: nat :: t + 1 - m <= j <= t ==> fails(j)
  }

  // That is what the counter after the tick tells.
  lemma EndsRunIff(fails: nat -> bool, t: nat, m: nat)
    ensures EndsRun(fails, t, m) <==> FailingSuffix(fails, t + 1) >= m
  {
    SuffixIs(fails, t + 1, m);
  }

  // A threshold of zero behaves as one of one.
  function Threshold(maxErrors: nat): nat {
    if maxErrors == 0 then 1 else maxErrors
  }

  // The loop of the ingester and of the subscriber. It runs until it breaks or is
  // cancelled, which happens here before the given tick. It breaks exactly at the first
  // tick that completes a run of so many errors; until then the counter is the failing
  // suffix itself, so that its saturation is never seen.
  method Run(fails: nat -> bool, maxErrors: nat, cancelledAt: nat) returns (brokeAt: Option<nat>, errorCount: nat)
    requires maxErrors <= U32_MAX
    ensures var m := if maxErrors == 0 then 1 else maxErrors;
            match brokeAt
            case Some(t) =>
              && t < cancelledAt && EndsRun(fails, t, m) && (forall s: nat :: s < t ==> !EndsRun(fails, s, m))
              && errorCount == FailingSuffix(fails, t + 1)
            case None =>
              && (forall s: nat :: s < cancelledAt ==> !EndsRun(fails, s, m))
              && errorCount == FailingSuffix(fails, cancelledAt)
  {
    errorCount := 0;
    for t := 0 to cancelledAt
      invariant errorCount == FailingSuffix(fails, t) && errorCount < Threshold(maxErrors)
      invariant forall s: nat :: s < t ==> !EndsRun(fails, s, Threshold(maxErrors))
    {
      EndsRunIff(fails, t, Threshold(maxErrors));
      if fails(t) {
        errorCount := SaturatingAdd(errorCount, U32_MAX);
        if errorCount >= maxErrors { return Some(t), errorCount; }
      } else {
        errorCount := 0;
      }
    }
    brokeAt := None;
  }

  datatype Check = Healthy | Unhealthy | TransportError

  datatype Exit = CannotReach(at: nat) | Transport(at: nat)

  function Fails(checks: nat -> Check): nat -> bool {
    (t: nat) => checks(t).Unhealthy?
  }

  // Every request before tick t was answered, and no run of failed answers ended.
  predicate QuietBefore(checks: nat -> Check, t: nat, m: nat) {
    t > 0 ==> !checks(t - 1).TransportError? && !EndsRun(Fails(checks), t - 1, m) && QuietBefore(checks, t - 1, m)
  }

  lemma {:induction false} QuietBeforeIff(checks: nat -> Check, t: nat, m: nat)
    ensures QuietBefore(checks, t, m) <==>
      forall s: nat :: s < t ==> !checks(s).TransportError? && !EndsRun(Fails(checks), s, m)
  {
    if t > 0 { QuietBeforeIff(checks, t - 1, m); }
  }

  // A run of failures is one of unhealthy answers.
  lemma UnhealthyRun(checks: nat -> Check, t: nat, m: nat)
    ensures EndsRun(Fails(checks), t, m) <==>
      m <= t + 1 && forall j: nat :: t + 1 - m <= j <= t ==> checks(j).Unhealthy?
  {
    assert forall j: nat :: Fails(checks)(j) <==> checks(j).Unhealthy?;
    if EndsRun(Fails(checks), t, m) {
      forall j: nat | t + 1 - m <= j <= t ensures checks(j).Unhealthy? { assert Fails(checks)(j); }
    }
  }

  // The health check counts answers that report a failure. A request that gets no answer
  // ends it at once, whatever the count.
  method ProcessHealthcheck(checks: nat -> Check, beforeShutdown: nat, cancelledAt: nat) returns (exit: Option<Exit>)
    requires beforeShutdown <= USIZE_MAX
    ensures var m := if beforeShutdown == 0 then 1 else beforeShutdown;
            match exit
            case Some(CannotReach(t)) =>
              && t < cancelledAt && QuietBefore(checks, t, m)
              && !checks(t).TransportError? && EndsRun(Fails(checks), t, m)
            case Some(Transport(t)) => t < cancelledAt && QuietBefore(checks, t, m) && checks(t).TransportError?
            case None => QuietBefore(checks, cancelledAt, m)
  {
    var failures := 0;
    for t := 0 to cancelledAt
      invariant failures == FailingSuffix(Fails(checks), t) && failures < Threshold(beforeShutdown)
      invariant QuietBefore(checks, t, Threshold(beforeShutdown))
    {
      if checks(t).TransportError? { return Some(Transport(t)); }
      SuffixIs(Fails(checks), t + 1, Threshold(beforeShutdown));
      if checks(t).Healthy? {
        failures := 0;
        continue;
      }
      failures := SaturatingAdd(failures, USIZE_MAX);
      if failures >= beforeShutdown { return Some(CannotReach(t)); }
    }
    exit := None;
  }
}

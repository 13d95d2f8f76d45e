// The alternating backoff behind a retry pair.
module Backoff {
  const U64_MAX: nat := 0xFFFF_FFFF_FFFF_FFFF

  type U64 = x: nat | x <= U64_MAX

  type Factor = x: nat | 0 < x <= U64_MAX witness 1

  datatype AlternationStep = First | Second

  function Saturate(x: nat): (r: U64)
    ensures x <= 0xFFFF_FFFF_FFFF_FFFF ==> r == x
    ensures x > 0xFFFF_FFFF_FFFF_FFFF ==> r == 0xFFFF_FFFF_FFFF_FFFF
  {
    if x > U64_MAX then U64_MAX else x
  }

  function Least(a: nat, b: nat): (r: nat)
    ensures r <= a && r <= b && (r == a || r == b)
  {
    if a > b then b else a
  }

  // The random draw picks any integer from half to one and a half times the delay.
  function Jitter(ms: U64, draw: nat): (r: U64)
    ensures ms / 2 <= r && 2 * r <= 3 * ms
  {
    if draw <= ms / 2 then ms / 2 else if draw <= 3 * ms / 2 then Saturate(draw) else Saturate(3 * ms / 2)
  }

  // No integer of that range is left out.
  lemma JitterReaches(ms: U64, r: U64)
    requires ms / 2 <= r && 2 * r <= 3 * ms
    ensures Jitter(ms, r) == r
  {
  }

  datatype Delays = Delays(first: U64, second: U64, path: AlternationStep)

  function Started(initialMs: nat): Delays {
    Delays(Saturate(initialMs), 0, First)
  }

  // From half to one and a half times the delay grown by the factor.
  predicate InJitterRange(r: U64, ms: U64, factor: Factor) {
    Saturate(ms * factor) / 2 <= r && 2 * r <= 3 * Saturate(ms * factor)
  }

  // A delay's successor: grown by the factor, then jittered.
  function Grown(ms: U64, factor: Factor, draw: nat): (r: U64)
    ensures InJitterRange(r, ms, factor)
  {
    Jitter(Saturate(ms * factor), draw)
  }

  // The second path's delay follows from the first path's, not from its own.
  function Stepped(d: Delays, factor: Factor, draw: nat): (r: Delays)
    ensures r.path != d.path
  {
    var next := Grown(d.first, factor, draw);
    match d.path
    case First => Delays(next, d.second, Second)
    case Second => Delays(d.first, next, First)
  }

  function PauseOf(d: Delays, maxMs: nat): U64 {
    var duration := if d.path.First? then d.first else d.second;
    if duration > Saturate(maxMs) then Saturate(maxMs) else duration
  }

  // The delays before iteration n, and the pause the iterator yields for it.
  function DelaysAt(initialMs: nat, factor: Factor, draws: nat -> nat, n: nat): Delays {
    if n == 0 then Started(initialMs)
    else Stepped(DelaysAt(initialMs, factor, draws, n - 1), factor, draws(n - 1))
  }

  function PauseAt(initialMs: nat, factor: Factor, maxMs: nat, draws: nat -> nat, n: nat): U64 {
    PauseOf(DelaysAt(initialMs, factor, draws, n), maxMs)
  }

  function StepAt(n: nat): AlternationStep {
    if n % 2 == 0 then First else Second
  }

  lemma StepAtNext(n: nat)
    ensures StepAt(n + 1) != StepAt(n)
  {
  }

  lemma PathNext(initialMs: nat, factor: Factor, draws: nat -> nat, n: nat)
    ensures DelaysAt(initialMs, factor, draws, n + 1).path != DelaysAt(initialMs, factor, draws, n).path
  {
  }

  lemma {:induction false} Alternates(initialMs: nat, factor: Factor, draws: nat -> nat, n: nat)
    ensures DelaysAt(initialMs, factor, draws, n).path == StepAt(n)
  {
    if n > 0 {
      Alternates(initialMs, factor, draws, n - 1);
      PathNext(initialMs, factor, draws, n - 1);
      StepAtNext(n - 1);
    }
  }

  class BackoffPairIterator {
    var currentFirstPathDelayMs: U64
    var currentSecondPathDelayMs: U64
    const factor: Factor
    const maxDelayMs: U64
    var backoffPath: AlternationStep

    constructor (initialMs: nat, factor: Factor, maxMs: nat)
      ensures Value() == Started(initialMs) && this.factor == factor && maxDelayMs == Saturate(maxMs)
    {
      currentFirstPathDelayMs := Saturate(initialMs);
      currentSecondPathDelayMs := 0;
      this.factor := factor;
      maxDelayMs := Saturate(maxMs);
      backoffPath := First;
    }

    ghost function Value(): Delays
      reads this
    {
      Delays(currentFirstPathDelayMs, currentSecondPathDelayMs, backoffPath)
    }

    method Next(draw: nat) returns (durationMs: U64, alternationStep: AlternationStep)
      modifies this
      ensures Value() == Stepped(old(Value()), factor, draw)
      ensures durationMs == PauseOf(old(Value()), maxDelayMs) && alternationStep == old(backoffPath)
      ensures alternationStep.First? ==>
        && durationMs == Least(old(currentFirstPathDelayMs), maxDelayMs) && backoffPath.Second?
        && Saturate(old(currentFirstPathDelayMs) * factor) / 2 <= currentFirstPathDelayMs
        && 2 * currentFirstPathDelayMs <= 3 * Saturate(old(currentFirstPathDelayMs) * factor)
        && currentSecondPathDelayMs == old(currentSecondPathDelayMs)
      ensures alternationStep.Second? ==>
        && durationMs == Least(old(currentSecondPathDelayMs), maxDelayMs) && backoffPath.First?
        && Saturate(old(currentFirstPathDelayMs) * factor) / 2 <= currentSecondPathDelayMs
        && 2 * currentSecondPathDelayMs <= 3 * Saturate(old(currentFirstPathDelayMs) * factor)
        && currentFirstPathDelayMs == old(currentFirstPathDelayMs)
    {
      alternationStep := backoffPath;
      match backoffPath {
        case First =>
          durationMs := currentFirstPathDelayMs;
          backoffPath := Second;
          currentFirstPathDelayMs := Grown(currentFirstPathDelayMs, factor, draw);
        case Second =>
          durationMs := currentSecondPathDelayMs;
          backoffPath := First;
          currentSecondPathDelayMs := Grown(currentFirstPathDelayMs, factor, draw);
      }
      if durationMs > maxDelayMs { durationMs := maxDelayMs; }
    }
  }

  // The first path's stored delay at its k-th turn, on its own.
  function FirstDelay(initialMs: nat, factor: Factor, draws: nat -> nat, k: nat): U64 {
    if k == 0 then Saturate(initialMs)
    else Grown(FirstDelay(initialMs, factor, draws, k - 1), factor, draws(2 * (k - 1)))
  }

  function Pow(base: nat, k: nat): nat {
    if k == 0 then 1 else base * Pow(base, k - 1)
  }

  // The second path's delay at its k-th turn.
  function SecondDelay(initialMs: nat, factor: Factor, draws: nat -> nat, k: nat): U64 {
    if k == 0 then 0 else Grown(FirstDelay(initialMs, factor, draws, k), factor, draws(2 * (k - 1) + 1))
  }

  lemma TwoSteps(initialMs: nat, factor: Factor, draws: nat -> nat, n: nat)
    ensures DelaysAt(initialMs, factor, draws, n + 2) ==
      Stepped(Stepped(DelaysAt(initialMs, factor, draws, n), factor, draws(n)), factor, draws(n + 1))
  {
    assert DelaysAt(initialMs, factor, draws, n + 1) ==
      Stepped(DelaysAt(initialMs, factor, draws, n), factor, draws(n));
  }

  lemma TurnSteps(d: Delays, factor: Factor, draw: nat, draw': nat)
    requires d.path.First?
    ensures var first := Grown(d.first, factor, draw);
            Stepped(Stepped(d, factor, draw), factor, draw') == Delays(first, Grown(first, factor, draw'), First)
  {
  }

  lemma NextTurn(initialMs: nat, factor: Factor, draws: nat -> nat, i: nat, d: Delays)
    requires d == Delays(FirstDelay(initialMs, factor, draws, i), SecondDelay(initialMs, factor, draws, i), First)
    ensures Stepped(Stepped(d, factor, draws(2 * i)), factor, draws(2 * i + 1)) ==
      Delays(FirstDelay(initialMs, factor, draws, i + 1), SecondDelay(initialMs, factor, draws, i + 1), First)
  {
    TurnSteps(d, factor, draws(2 * i), draws(2 * i + 1));
  }

  // The iterator's delays before the k-th turn of the first path.
  lemma {:induction false} DelaysAtTurn(initialMs: nat, factor: Factor, draws: nat -> nat, k: nat)
    ensures DelaysAt(initialMs, factor, draws, 2 * k) ==
      Delays(FirstDelay(initialMs, factor, draws, k), SecondDelay(initialMs, factor, draws, k), First)
  {
    if k > 0 {
      var i := k - 1;
      DelaysAtTurn(initialMs, factor, draws, i);
      TwoSteps(initialMs, factor, draws, 2 * i);
      NextTurn(initialMs, factor, draws, i, DelaysAt(initialMs, factor, draws, 2 * i));
      assert 2 * k == 2 * i + 2;
    }
  }

  lemma GrowthStep(delay: nat, factor: nat, next: nat, initial: nat, twos: nat, rates: nat)
    requires 2 * next <= 3 * (delay * factor) && twos * delay <= rates * initial
    ensures (2 * twos) * next <= (3 * factor * rates) * initial
  {
    assert (2 * twos) * next == twos * (2 * next);
    assert twos * (2 * next) <= twos * (3 * (delay * factor));
    assert twos * (3 * (delay * factor)) == (3 * factor) * (twos * delay);
    assert (3 * factor) * (twos * delay) <= (3 * factor) * (rates * initial);
  }

  lemma FirstDelayStep(initialMs: nat, factor: Factor, draws: nat -> nat, k: nat) returns (delay: U64, next: U64)
    requires k > 0
    ensures delay == FirstDelay(initialMs, factor, draws, k - 1) && next == FirstDelay(initialMs, factor, draws, k)
    ensures Saturate(delay * factor) / 2 <= next && 2 * next <= 3 * Saturate(delay * factor)
  {
    delay := FirstDelay(initialMs, factor, draws, k - 1);
    next := Grown(delay, factor, draws(2 * (k - 1)));
  }

  // The k-th stored delay of the first path stays below the initial delay times
  // (3 * factor / 2)^k, and it saturates at the largest u64.
  lemma {:induction false} FirstDelayGrowth(initialMs: nat, factor: Factor, draws: nat -> nat, k: nat)
    ensures FirstDelay(initialMs, factor, draws, k) <= U64_MAX
    ensures Pow(2, k) * FirstDelay(initialMs, factor, draws, k) <= Pow(3 * factor, k) * initialMs
  {
    if k > 0 {
      FirstDelayGrowth(initialMs, factor, draws, k - 1);
      var delay, next := FirstDelayStep(initialMs, factor, draws, k);
      GrowthStep(delay, factor, next, initialMs, Pow(2, k - 1), Pow(3 * factor, k - 1));
    }
  }

  lemma FloorStep(delay: U64, factor: Factor, low: nat)
    requires factor >= 2 && low <= delay && low <= U64_MAX / 2
    ensures low <= Saturate(delay * factor) / 2
  {
    AtLeastTwice(delay, factor);
    SaturatedHalf(delay * factor, low);
  }

  lemma AtLeastTwice(delay: nat, factor: nat)
    requires factor >= 2
    ensures delay * factor >= 2 * delay
  {
    assert delay * factor == delay * 2 + delay * (factor - 2);
  }

  lemma SaturatedHalf(product: nat, low: nat)
    requires 2 * low <= product && low <= U64_MAX / 2
    ensures low <= Saturate(product) / 2
  {
    assert Saturate(product) >= 2 * low;
  }

  // With a factor of at least two, jitter never takes the first path's delay below
  // the initial one, or half of the largest u64.
  lemma {:induction false} FirstDelayFloor(initialMs: nat, factor: Factor, draws: nat -> nat, k: nat)
    requires factor >= 2
    ensures FirstDelay(initialMs, factor, draws, k) >= if initialMs <= U64_MAX / 2 then initialMs else U64_MAX / 2
  {
    if k > 0 {
      FirstDelayFloor(initialMs, factor, draws, k - 1);
      var delay, next := FirstDelayStep(initialMs, factor, draws, k);
      FloorStep(delay, factor, if initialMs <= U64_MAX / 2 then initialMs else U64_MAX / 2);
    }
  }

  // Every pause is at most the maximal delay. The first path pauses for its stored delay,
  // which starts as the initial one and is grown by the factor and jittered at each of its
  // turns. The second path's first pause is zero; a later one comes from the first path's
  // stored delay of the same turn, times the factor, jittered.
  lemma PauseEnvelope(initialMs: nat, factor: Factor, maxMs: nat, draws: nat -> nat, k: nat)
    ensures PauseAt(initialMs, factor, maxMs, draws, 2 * k) ==
      Least(FirstDelay(initialMs, factor, draws, k), Saturate(maxMs))
    ensures PauseAt(initialMs, factor, maxMs, draws, 2 * k + 1) ==
      Least(SecondDelay(initialMs, factor, draws, k), Saturate(maxMs))
    ensures FirstDelay(initialMs, factor, draws, 0) == Saturate(initialMs)
    ensures SecondDelay(initialMs, factor, draws, 0) == 0
    ensures var delay := FirstDelay(initialMs, factor, draws, k);
            var next := FirstDelay(initialMs, factor, draws, k + 1);
            Saturate(delay * factor) / 2 <= next && 2 * next <= 3 * Saturate(delay * factor)
    ensures k > 0 ==>
      var delay := FirstDelay(initialMs, factor, draws, k);
      var next := SecondDelay(initialMs, factor, draws, k);
      Saturate(delay * factor) / 2 <= next && 2 * next <= 3 * Saturate(delay * factor)
  {
    DelaysAtTurn(initialMs, factor, draws, k);
    var d := DelaysAt(initialMs, factor, draws, 2 * k);
    assert DelaysAt(initialMs, factor, draws, 2 * k + 1) == Stepped(d, factor, draws(2 * k));
    var delay, next := FirstDelayStep(initialMs, factor, draws, k + 1);
  }
}

// Runs of a step system given by its relation next(state, action, state').
module Runs {
  ghost predicate IsRun<S(!new), A(!new)>(next: (S, A, S) -> bool, run: seq<S>, acts: seq<A>) {
    |run| == |acts| + 1 && forall i :: 0 <= i < |acts| ==> next(run[i], acts[i], run[i + 1])
  }

  ghost predicate Reaches<S(!new), A(!new)>(next: (S, A, S) -> bool, s: S, t: S) {
    exists run: seq<S>, acts: seq<A> :: IsRun(next, run, acts) && run[0] == s && run[|acts|] == t
  }

  lemma ReachesSelf<S(!new), A(!new)>(next: (S, A, S) -> bool, s: S)
    ensures Reaches(next, s, s)
  {
    var acts: seq<A> := [];
    assert IsRun(next, [s], acts);
  }

  lemma ReachesNext<S(!new), A(!new)>(next: (S, A, S) -> bool, s: S, t: S, a: A, u: S)
    requires Reaches(next, s, t) && next(t, a, u)
    ensures Reaches(next, s, u)
  {
    var run: seq<S>, acts: seq<A> :| IsRun(next, run, acts) && run[0] == s && run[|acts|] == t;
    assert IsRun(next, run + [u], acts + [a]);
  }

  lemma ReachesTrans<S(!new), A(!new)>(next: (S, A, S) -> bool, s: S, t: S, u: S)
    requires Reaches(next, s, t) && Reaches(next, t, u)
    ensures Reaches(next, s, u)
  {
    var run: seq<S>, acts: seq<A> :| IsRun(next, run, acts) && run[0] == s && run[|acts|] == t;
    var run2: seq<S>, acts2: seq<A> :| IsRun(next, run2, acts2) && run2[0] == t && run2[|acts2|] == u;
    var both, all := run + run2[1..], acts + acts2;
    forall i | 0 <= i < |all| ensures next(both[i], all[i], both[i + 1]) {
      if i >= |acts| { assert both[i] == run2[i - |acts|] && both[i + 1] == run2[i - |acts| + 1]; }
    }
    assert IsRun(next, both, all);
  }

  // What every step keeps, every run keeps.
  lemma {:induction false} Invariant<S(!new), A(!new)>(
    next: (S, A, S) -> bool, inv: S -> bool, run: seq<S>, acts: seq<A>, i: nat)
    requires IsRun(next, run, acts) && i < |run| && inv(run[0])
    requires forall s, a, s' :: inv(s) && next(s, a, s') ==> inv(s')
    ensures inv(run[i])
  {
    if i > 0 { Invariant(next, inv, run, acts, i - 1); }
  }

  lemma InvariantReached<S(!new), A(!new)>(next: (S, A, S) -> bool, inv: S -> bool, s: S, t: S)
    requires Reaches(next, s, t) && inv(s)
    requires forall s, a, s' :: inv(s) && next(s, a, s') ==> inv(s')
    ensures inv(t)
  {
    var run: seq<S>, acts: seq<A> :| IsRun(next, run, acts) && run[0] == s && run[|acts|] == t;
    Invariant(next, inv, run, acts, |acts|);
  }
}

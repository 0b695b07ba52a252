/**
 * Runs of a state machine: finite sequences of states that start in an initial one
 * and move by one step at a time. The two inductions every concurrent model here
 * needs are done once: an invariant, and a property that, once true, stays.
 */
module Runs {
  ghost predicate IsRun<S(!new)>(init: S -> bool, next: (S, S) -> bool, run: seq<S>) {
    if |run| <= 1 then |run| == 1 && init(run[0])
    else
      var n := |run| - 1;
      IsRun(init, next, run[..n]) && next(run[n - 1], run[n])
  }

  lemma Extended<S(!new)>(init: S -> bool, next: (S, S) -> bool, run: seq<S>, s: S)
    requires IsRun(init, next, run) && next(run[|run| - 1], s)
    ensures IsRun(init, next, run + [s])
  {
    assert (run + [s])[..|run|] == run;
  }

  ghost predicate Inductive<S(!new)>(init: S -> bool, next: (S, S) -> bool, inv: S -> bool) {
    && (forall s :: init(s) ==> inv(s))
    && (forall s, t :: inv(s) && next(s, t) ==> inv(t))
  }

  lemma {:induction false} Holds<S(!new)>(init: S -> bool, next: (S, S) -> bool, inv: S -> bool, run: seq<S>, i: nat)
    requires IsRun(init, next, run) && Inductive(init, next, inv) && i < |run|
    ensures inv(run[i])
  {
    var n := |run| - 1;
    if n == 0 {
    } else if i == n {
      Holds(init, next, inv, run[..n], n - 1);
      assert inv(run[n - 1]);
    } else {
      Holds(init, next, inv, run[..n], i);
    }
  }

  lemma {:induction false} StartsAt<S(!new)>(init: S -> bool, next: (S, S) -> bool, run: seq<S>)
    requires IsRun(init, next, run)
    ensures init(run[0])
  {
    if |run| > 1 { StartsAt(init, next, run[..|run| - 1]); }
  }

  lemma {:induction false} StepAt<S(!new)>(init: S -> bool, next: (S, S) -> bool, run: seq<S>, i: nat)
    requires IsRun(init, next, run) && 0 < i < |run|
    ensures next(run[i - 1], run[i])
  {
    var n := |run| - 1;
    if i < n {
      StepAt(init, next, run[..n], i);
      assert run[..n][i] == run[i] && run[..n][i - 1] == run[i - 1];
    }
  }

  ghost predicate Stable<S(!new)>(next: (S, S) -> bool, inv: S -> bool, p: S -> bool) {
    forall s, t :: inv(s) && next(s, t) && p(s) ==> p(t)
  }

  lemma {:induction false} Stays<S(!new)>(init: S -> bool, next: (S, S) -> bool, inv: S -> bool, p: S -> bool,
                                          run: seq<S>, i: nat, j: nat)
    requires IsRun(init, next, run) && Inductive(init, next, inv) && Stable(next, inv, p)
    requires i <= j < |run| && p(run[i])
    ensures p(run[j])
    decreases j
  {
    if i < j {
      Stays(init, next, inv, p, run, i, j - 1);
      Holds(init, next, inv, run, j - 1);
      StepAt(init, next, run, j);
      assert inv(run[j - 1]) && next(run[j - 1], run[j]) && p(run[j - 1]);
    }
  }
}

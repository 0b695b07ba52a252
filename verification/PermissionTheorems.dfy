/**
 * What the coordinator promises over every run of PermissionRuns.
 */
module PermissionTheorems {
  import opened PermissionModel
  import opened PermissionRuns
  import opened PermissionProofs

  // ---- turns only move towards their end -----------------------------------------------

  ghost predicate FlagsMove(t: Turn, t': Turn) {
    && (t'.active ==> t.active)
    && (t.canceled ==> t'.canceled)
    && (t.ending ==> t'.ending)
    && (t.doneClosed ==> t'.doneClosed)
  }

  ghost predicate TurnsMove(c: Coordinator, c': Coordinator) {
    && c.generation <= c'.generation
    && (c.closed ==> c'.closed)
    && (forall g :: g in c.turns ==> g in c'.turns && FlagsMove(c.turns[g], c'.turns[g]))
    && (forall g :: g in c'.turns && g !in c.turns ==> c.generation < g)
  }

  lemma AdmissionMoves(c: Coordinator, forDispatch: bool, a: Admission)
    ensures TurnsMove(c, PermissionModel.Admit(c, forDispatch).0)
    ensures TurnsMove(c, CompleteAdmission(c, a))
  {
  }

  lemma StepMoves(s: System, step: Step)
    requires Inv(s) && Enabled(s, step)
    ensures TurnsMove(s.c, Apply(s, step).c)
  {
    if IsLifecycle(step) {
      LifecycleStepMoves(s, step);
      assert forall g :: g in s.c.turns ==> TurnMoves(s.c.turns[g], Apply(s, step).c.turns[g]);
    } else if step.Admit? {
      AdmissionMoves(s.c, step.forDispatch, Admission(0, false, false, false, false));
    } else if step.Complete? {
      AdmissionMoves(s.c, false, s.requests[step.r].admission);
    }
  }

  // ---- a resolution is decided at one point --------------------------------------------

  /** Generation g is, or was, a turn that no longer takes selections. */
  ghost predicate Dead(c: Coordinator, g: nat) {
    g <= c.generation && !TurnOpen(c, g)
  }

  /** Requests keep the admission and the frame they came with. */
  lemma StepKeepsRequest(s: System, step: Step, r: nat)
    requires Enabled(s, step) && At(s, r)
    ensures var t := Apply(s, step);
      && At(t, r)
      && t.requests[r].admission == s.requests[r].admission && t.requests[r].wire == s.requests[r].wire
      && (s.requests[r].pc.Completed? ==> t.requests[r].pc == s.requests[r].pc)
  {
  }

  /** A request whose turn is dead and that has not resolved as Selected. */
  ghost predicate CanOnlyDecline(s: System, r: nat) {
    && At(s, r)
    && Dead(s.c, s.requests[r].admission.generation)
    && (Resolved(s.requests[r].pc) ==> s.requests[r].pc.resolution.outcome.Cancelled?)
  }

  lemma StepDeclines(s: System, step: Step, r: nat)
    requires Enabled(s, step) && CanOnlyDecline(s, r)
    requires RequestOk(s.c, s.callbacks, r, s.requests[r])
    ensures var t := Apply(s, step);
      At(t, r) && (Resolved(t.requests[r].pc) ==> t.requests[r].pc.resolution.outcome.Cancelled?)
  {
  }

  lemma StepKeepsDecline(s: System, step: Step, r: nat)
    requires Inv(s) && Enabled(s, step) && CanOnlyDecline(s, r)
    ensures CanOnlyDecline(Apply(s, step), r)
  {
    StepMoves(s, step);
    StepKeepsInv(s, step);
    StepKeepsRequest(s, step, r);
    assert RequestOk(s.c, s.callbacks, r, s.requests[r]);
    StepDeclines(s, step, r);
  }

  lemma DeclineIsStable(r: nat)
    ensures Runs.Stable(Next, Inv, (s: System) => CanOnlyDecline(s, r))
  {
    forall s: System, t: System | Inv(s) && Next(s, t) && CanOnlyDecline(s, r) ensures CanOnlyDecline(t, r) {
      var step :| Enabled(s, step) && t == Apply(s, step);
      StepKeepsDecline(s, step, r);
    }
  }

  /** The turn is cancelled, or its admission closed, or it is dropped, or the coordinator is
      closed. */
  predicate IsOver(c: Coordinator, g: nat) {
    c.closed || g !in c.registered || g !in c.turns || !c.turns[g].active || c.turns[g].canceled
  }

  /** Once its turn is cancelled, closed, ended or superseded, or the coordinator is
      closed, a request that has not resolved can only ever resolve as cancelled. */
  lemma DeadTurnsDecline(run: seq<System>, i: nat, j: nat, r: nat)
    requires Run(run) && i <= j < |run|
    requires At(run[i], r) && !Resolved(run[i].requests[r].pc)
    requires IsOver(run[i].c, run[i].requests[r].admission.generation)
    ensures At(run[j], r)
    ensures Resolved(run[j].requests[r].pc) ==> run[j].requests[r].pc.resolution.outcome.Cancelled?
  {
    InvIsInductive();
    DeclineIsStable(r);
    InvAt(run, i);
    assert RequestOk(run[i].c, run[i].callbacks, r, run[i].requests[r]);
    Runs.Stays(Init, Next, Inv, (s: System) => CanOnlyDecline(s, r), run, i, j);
  }

  /** A Selected resolution is an option of the request's own frame, named by the
      answer its own responder callback returned. */
  lemma SelectedWasOffered(run: seq<System>, i: nat, r: nat)
    requires Run(run) && i < |run| && At(run[i], r)
    requires Resolved(run[i].requests[r].pc) && run[i].requests[r].pc.resolution.outcome.Selected?
    ensures var s := run[i]; var d := s.requests[r]; var o := d.pc.resolution.option;
      && d.admission.activeTurn
      && o.Some? && o.value in Offered(d) && d.committedWith.Some?
      && d.committedWith.value in s.callbacks && !s.callbacks[d.committedWith.value].Running?
      && s.callbacks[d.committedWith.value].answer == Chose(o.value.optionID)
  {
    InvAt(run, i);
    assert RequestOk(run[i].c, run[i].callbacks, r, run[i].requests[r]);
  }

  /** The commit: Selected exactly when nothing cancelled the request, its own turn is
      the current one and open, and the responder named an option it offered. */
  lemma CommitDecides(s: System, r: nat)
    requires Inv(s) && At(s, r) && s.requests[r].pc.Answered? && s.requests[r].pc.entry in s.c.pending
    ensures var d := s.requests[r]; var pc := CommitStep(s, r).requests[r].pc;
      pc.Committed? &&
      (pc.resolution.outcome.Selected? <==>
        && !s.c.pending[d.pc.entry].canceled
        && d.admission.generation == s.c.generation && !IsOver(s.c, s.c.generation)
        && d.pc.answer.Chose? && d.pc.answer.optionID != ""
        && exists o :: o in Offered(d) && o.optionID == d.pc.answer.optionID)
  {
  }

  /** No step marks a committed entry cancelled: it stays as it is until forgotten. */
  lemma CommittedIsFrozen(s: System, step: Step, e: nat)
    requires Inv(s) && Enabled(s, step)
    requires e in s.c.pending && s.c.pending[e].committed
    ensures var t := Apply(s, step); e in t.c.pending ==> t.c.pending[e] == s.c.pending[e]
  {
    if IsLifecycle(step) {
      LifecycleStepMoves(s, step);
      assert EntryMoves(s.c.pending[e], Apply(s, step).c.pending[e]);
    } else if step.Commit? {
      assert RequestOk(s.c, s.callbacks, step.r, s.requests[step.r]);
    }
  }

  lemma OneActiveTurn(run: seq<System>, i: nat, g: nat)
    requires Run(run) && i < |run| && g in run[i].c.turns && run[i].c.turns[g].active
    ensures g == run[i].c.generation
  {
    InvAt(run, i);
    assert TurnOk(run[i].c, g);
  }

  // ---- the end-of-turn barrier -----------------------------------------------------------

  /** The count a turn's barrier waits on is the dispatches bound to it, and its done
      channel is closed, once, exactly when it is ending with none left. */
  lemma BarrierCounts(run: seq<System>, i: nat, g: nat)
    requires Run(run) && i < |run| && g in run[i].c.turns
    ensures var t := run[i].c.turns[g]; var bound := Bound(run[i].requests, g);
      && t.dispatches == |bound|
      && (t.doneClosed <==> t.ending && bound == {})
      && t.doneCloses == if t.ending && bound == {} then 1 else 0
  {
    InvAt(run, i);
    assert TurnOk(run[i].c, g);
  }

  /** Turn g has ended or is ending, and its dispatches are among `bound`. */
  ghost predicate Draining(s: System, g: nat, bound: set<nat>) {
    && g <= s.c.generation
    && (g in s.c.turns ==> s.c.turns[g].ending)
    && Bound(s.requests, g) <= bound
  }

  lemma StepKeepsBound(s: System, step: Step, g: nat)
    requires Inv(s) && Enabled(s, step)
    requires g in s.c.turns ==> s.c.turns[g].ending
    ensures Bound(Apply(s, step).requests, g) <= Bound(s.requests, g)
  {
    var t := Apply(s, step);
    if g in s.c.turns { assert TurnOk(s.c, g); }
    forall r | r in Bound(t.requests, g) ensures r in Bound(s.requests, g) {
      if r in s.requests { StepKeepsRequest(s, step, r); }
    }
  }

  lemma DrainingIsStable(g: nat, bound: set<nat>)
    ensures Runs.Stable(Next, Inv, (s: System) => Draining(s, g, bound))
  {
    forall s: System, t: System | Inv(s) && Next(s, t) && Draining(s, g, bound) ensures Draining(t, g, bound) {
      var step :| Enabled(s, step) && t == Apply(s, step);
      StepKeepsBound(s, step, g);
      StepMoves(s, step);
      if g in s.c.turns { assert FlagsMove(s.c.turns[g], t.c.turns[g]); }
    }
  }

  /** Once a turn is ending no request joins it and nothing reopens it, whatever
      turns begin later: its dispatches only drain. */
  lemma EndingOnlyDrains(run: seq<System>, i: nat, j: nat, g: nat)
    requires Run(run) && i <= j < |run|
    requires g in run[i].c.turns && run[i].c.turns[g].ending
    ensures g in run[j].c.turns && run[j].c.turns[g].ending && !run[j].c.turns[g].active
    ensures Bound(run[j].requests, g) <= Bound(run[i].requests, g)
  {
    InvAt(run, i);
    InvAt(run, j);
    InvIsInductive();
    DrainingIsStable(g, Bound(run[i].requests, g));
    Runs.Stays(Init, Next, Inv, (s: System) => Draining(s, g, Bound(run[i].requests, g)), run, i, j);
  }

  /** When an EndTurn call has returned, no dispatch admitted to its turn is running,
      and none ever will be. */
  lemma EndTurnIsABarrier(run: seq<System>, i: nat, j: nat, w: nat)
    requires Run(run) && i <= j < |run| && w in run[i].ends && run[i].ends[w].returned
    ensures Bound(run[j].requests, run[i].ends[w].generation) == {}
  {
    InvAt(run, i);
    var g := run[i].ends[w].generation;
    InvIsInductive();
    DrainingIsStable(g, {});
    Runs.Stays(Init, Next, Inv, (s: System) => Draining(s, g, {}), run, i, j);
  }

  /** Every completion of a dispatch takes one from the count its turn waits on. */
  lemma CompletionDrains(s: System, r: nat)
    requires Inv(s) && At(s, r) && s.requests[r].pc.Responded? && s.requests[r].admission.counted
    ensures var g := s.requests[r].admission.generation; var t := CompleteStep(s, r);
      && g in s.c.turns
      && t.c.turns[g].dispatches == s.c.turns[g].dispatches - 1
      && Bound(t.requests, g) == Bound(s.requests, g) - {r}
  {
  }

  // ---- the two bounds ----------------------------------------------------------------------

  /** Both counters are exact in every reachable state and neither passes 64, even
      with callbacks of earlier turns still running. */
  lemma CountersAreExact(run: seq<System>, i: nat)
    requires Run(run) && i < |run|
    ensures var s := run[i];
      && s.c.asyncDispatches == |Workers(s.requests)| <= MAX_CONCURRENT
      && s.c.callbacks == |Callbacks(s.callbacks)| <= MAX_CONCURRENT
  {
    InvAt(run, i);
  }
}

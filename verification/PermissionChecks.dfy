/**
 * What a request went through (dispatchTurnRequest and respondAdmitted of acp/permission.go),
 * over every run: what admitted it, the checks before its responder is asked, and the
 * resolution it keeps from then on.
 */
module PermissionChecks {
  import opened Options
  import opened PermissionModel
  import opened PermissionRuns
  import opened PermissionProofs
  import opened PermissionTheorems

  // ---- admission ----------------------------------------------------------------------------------

  /** The request was admitted at step k of the run. */
  ghost predicate AdmittedAt(run: seq<System>, k: nat, r: nat) {
    k + 1 < |run| && r !in run[k].requests && r in run[k + 1].requests
  }

  /** A request is admitted to the turn that is active, if there is one, and as a dispatch gets
      a goroutine of its own if fewer than 64 have one. */
  lemma AdmissionOfARun(run: seq<System>, k: nat, r: nat)
    requires Run(run) && AdmittedAt(run, k, r)
    ensures var (c, d) := (run[k].c, run[k + 1].requests[r]);
      && d.pc.Admitted? && d.committedWith.None? && d.admission.generation == c.generation
      && (d.admission.activeTurn <==> !IsShut(c))
      && (d.admission.counted ==> d.admission.activeTurn)
      && (d.admission.counted ==> (d.admission.async <==> |Workers(run[k].requests)| < 64))
      && (d.admission.counted ==> d.admission.atCapacity == !d.admission.async)
      && (!d.admission.counted ==> !d.admission.async && !d.admission.atCapacity)
  {
    InvAt(run, k);
    Runs.StepAt(Init, Next, run, k + 1);
    var step :| Enabled(run[k], step) && run[k + 1] == Apply(run[k], step);
    NewIsAdmitted(run[k], step, r);
    if run[k].c.generation in run[k].c.turns { assert TurnOk(run[k].c, run[k].c.generation); }
  }

  /** No turn takes requests. */
  predicate IsShut(c: Coordinator) {
    c.closed || c.generation !in c.turns || !c.turns[c.generation].active
  }

  lemma NewIsAdmitted(s: System, step: Step, r: nat)
    requires Enabled(s, step) && r !in s.requests && r in Apply(s, step).requests
    ensures step.Admit? && step.r == r
    ensures Apply(s, step).requests[r] == Dispatch(PermissionModel.Admit(s.c, step.forDispatch).1, step.wire, Admitted, None)
  {
  }

  // ---- the checks ---------------------------------------------------------------------------------

  /** The request's checks were made at step k of the run. */
  ghost predicate CheckedAt(run: seq<System>, k: nat, r: nat) {
    && k + 1 < |run| && r in run[k].requests && r in run[k + 1].requests
    && run[k].requests[r].pc.Admitted? && !run[k + 1].requests[r].pc.Admitted?
  }

  /** It names the session the coordinator is bound to, if it is bound to one. */
  predicate OfTheSession(c: Coordinator, w: Wire) {
    w.Wire? && (c.sessionID == "" || w.sessionID == c.sessionID)
  }

  /** The reason for the first check that fails, in the code's order. */
  function FirstFailure(c: Coordinator, d: Dispatch): Option<Reason> {
    if !ValidWire(d.wire) then Some(InvalidRequest)
    else if !OfTheSession(c, d.wire) then Some(SessionMismatch)
    else if !c.responder then Some(NoResponder)
    else if !d.admission.activeTurn then Some(TurnNotActive)
    else if d.admission.atCapacity then Some(CapacityReached)
    else None
  }

  predicate IsFailure(reason: Reason) {
    reason.InvalidRequest? || reason.SessionMismatch? || reason.CapacityReached? || reason.ResponderError? || reason.InvalidSelection?
  }

  /** The checks pass, or the request is declined for the first that fails. */
  lemma ChecksDecide(run: seq<System>, k: nat, r: nat)
    requires Run(run) && CheckedAt(run, k, r)
    ensures var (d, pc) := (run[k].requests[r], run[k + 1].requests[r].pc);
      match FirstFailure(run[k].c, d)
      case None => pc.Checked?
      case Some(reason) => pc == Declining(Resolution(Cancelled, None, reason, IsFailure(reason), false))
  {
    Runs.StepAt(Init, Next, run, k + 1);
    var step :| Enabled(run[k], step) && run[k + 1] == Apply(run[k], step);
    OnlyCheckChecks(run[k], step, r);
  }

  lemma OnlyCheckChecks(s: System, step: Step, r: nat)
    requires Enabled(s, step) && r in s.requests && s.requests[r].pc.Admitted?
    requires r in Apply(s, step).requests && !Apply(s, step).requests[r].pc.Admitted?
    ensures step == Check(r) && Apply(s, step).requests[r].pc == Precheck(s.c, s.requests[r])
  {
  }

  /** It is past its checks: it asks for a slot, or has asked its responder. */
  predicate IsPast(d: Dispatch) {
    d.pc.Checked? || HoldsEntry(d.pc) || d.committedWith.Some?
  }

  lemma PastComesFromACheck(s: System, step: Step, r: nat)
    requires Enabled(s, step) && r in s.requests && !IsPast(s.requests[r]) && IsPast(Apply(s, step).requests[r])
    ensures step == Check(r) && Apply(s, step).requests[r].pc.Checked?
  {
  }

  lemma {:induction false} PastWasChecked(run: seq<System>, i: nat, r: nat) returns (k: nat)
    requires Run(run) && i < |run| && r in run[i].requests && IsPast(run[i].requests[r])
    ensures k < i && CheckedAt(run, k, r) && run[k + 1].requests[r].pc.Checked?
    ensures run[k].requests[r].wire == run[i].requests[r].wire && run[k].requests[r].admission == run[i].requests[r].admission
    decreases i
  {
    if i == 0 {
      Runs.StartsAt(Init, Next, run);
      assert false;
    } else {
      Runs.StepAt(Init, Next, run, i);
      var step :| Enabled(run[i - 1], step) && run[i] == Apply(run[i - 1], step);
      if r !in run[i - 1].requests {
        NewIsAdmitted(run[i - 1], step, r);
        assert false;
      } else {
        StepKeepsRequest(run[i - 1], step, r);
        if IsPast(run[i - 1].requests[r]) {
          k := PastWasChecked(run, i - 1, r);
        } else {
          PastComesFromACheck(run[i - 1], step, r);
          k := i - 1;
        }
      }
    }
  }

  /** A request that asks for a slot, waits for its responder or resolved as Selected was
      checked once, when it was a complete frame, named the session the coordinator was bound
      to then, if any, and had a responder, an active turn and room. */
  lemma PassedItsChecks(run: seq<System>, i: nat, r: nat) returns (k: nat)
    requires Run(run) && i < |run| && r in run[i].requests
    requires var d := run[i].requests[r];
      IsPast(d) || (Resolved(d.pc) && d.pc.resolution.outcome.Selected?)
    ensures k < i && CheckedAt(run, k, r)
    ensures var (c, d) := (run[k].c, run[i].requests[r]);
      ValidWire(d.wire) && (c.sessionID == "" || d.wire.sessionID == c.sessionID) && c.responder
      && d.admission.activeTurn && !d.admission.atCapacity
  {
    InvAt(run, i);
    assert RequestOk(run[i].c, run[i].callbacks, r, run[i].requests[r]);
    k := PastWasChecked(run, i, r);
    ChecksDecide(run, k, r);
  }

  // ---- the resolution ------------------------------------------------------------------------------

  ghost predicate ResolvedAs(s: System, r: nat, outcome: Outcome, option: Option<PermissionOption>, reason: Reason) {
    && r in s.requests && Resolved(s.requests[r].pc)
    && var x := s.requests[r].pc.resolution; x.outcome == outcome && x.option == option && x.reason == reason
  }

  lemma StepKeepsResolution(s: System, step: Step, r: nat, outcome: Outcome, option: Option<PermissionOption>, reason: Reason)
    requires Enabled(s, step) && ResolvedAs(s, r, outcome, option, reason)
    ensures ResolvedAs(Apply(s, step), r, outcome, option, reason)
  {
  }

  /** A resolution keeps its outcome, option and reason, whatever becomes of its response. */
  lemma ResolutionsStay(run: seq<System>, i: nat, j: nat, r: nat)
    requires Run(run) && i <= j < |run| && r in run[i].requests && Resolved(run[i].requests[r].pc)
    ensures r in run[j].requests && Resolved(run[j].requests[r].pc)
    ensures var (x, now) := (run[i].requests[r].pc.resolution, run[j].requests[r].pc.resolution);
      now.outcome == x.outcome && now.option == x.option && now.reason == x.reason
  {
    InvIsInductive();
    var x := run[i].requests[r].pc.resolution;
    var same := (s: System) => ResolvedAs(s, r, x.outcome, x.option, x.reason);
    forall s: System, t: System | Inv(s) && Next(s, t) && same(s) ensures same(t) {
      var step :| Enabled(s, step) && t == Apply(s, step);
      StepKeepsResolution(s, step, r, x.outcome, x.option, x.reason);
    }
    Runs.Stays(Init, Next, Inv, same, run, i, j);
  }

  /** So a request that failed a check is never selected, and its reason is of the first. */
  lemma FailedChecksDecline(run: seq<System>, k: nat, j: nat, r: nat)
    requires Run(run) && CheckedAt(run, k, r) && k < j < |run| && FirstFailure(run[k].c, run[k].requests[r]).Some?
    ensures r in run[j].requests && Resolved(run[j].requests[r].pc)
    ensures var x := run[j].requests[r].pc.resolution;
      x.outcome.Cancelled? && x.option.None? && Some(x.reason) == FirstFailure(run[k].c, run[k].requests[r])
  {
    ChecksDecide(run, k, r);
    ResolutionsStay(run, k + 1, j, r);
  }

  // ---- the slot and the decision -------------------------------------------------------------------

  /** A request that passed its checks gets a slot if its turn is not over by then and fewer
      than 64 callbacks run. */
  lemma SlotsAreGiven(run: seq<System>, k: nat, r: nat)
    requires Run(run) && k + 1 < |run| && r in run[k].requests && r in run[k + 1].requests
    requires run[k].requests[r].pc.Checked? && !run[k + 1].requests[r].pc.Checked?
    ensures var (s, pc) := (run[k], run[k + 1].requests[r].pc);
      if IsOver(s.c, s.requests[r].admission.generation) then pc == Declining(Resolution(Cancelled, None, TurnNotActive, false, false))
      else if |Callbacks(s.callbacks)| >= 64 then pc == Declining(Resolution(Cancelled, None, CapacityReached, true, false))
      else pc.Waiting? && pc.entry !in s.callbacks && pc.entry in run[k + 1].callbacks && run[k + 1].callbacks[pc.entry] == Running(r)
  {
    InvAt(run, k);
    Runs.StepAt(Init, Next, run, k + 1);
    var step :| Enabled(run[k], step) && run[k + 1] == Apply(run[k], step);
    OnlyRegisterRegisters(run[k], step, r);
  }

  lemma OnlyRegisterRegisters(s: System, step: Step, r: nat)
    requires Enabled(s, step) && r in s.requests && s.requests[r].pc.Checked?
    requires r in Apply(s, step).requests && !Apply(s, step).requests[r].pc.Checked?
    ensures step == Register(r)
  {
  }

  /** Why a commit does not select, in the code's order. */
  lemma CommitSaysWhy(s: System, r: nat)
    requires Inv(s) && r in s.requests && s.requests[r].pc.Answered? && s.requests[r].pc.entry in s.c.pending
    ensures var (d, pc) := (s.requests[r], CommitStep(s, r).requests[r].pc);
      && pc.Committed? && !pc.resolution.deliveryFailed
      && (var x := pc.resolution;
          if s.c.pending[d.pc.entry].canceled || IsOver(s.c, d.admission.generation) || d.pc.answer.ContextEnded? then
            x.outcome.Cancelled? && x.reason == RequestCancelled && !x.diagnostic
          else if d.pc.answer.ResponderFailed? then x.outcome.Cancelled? && x.reason == ResponderError && x.diagnostic
          else if d.pc.answer.optionID == "" then x.outcome.Cancelled? && x.reason == ResponderDeclined && !x.diagnostic
          else if exists o :: o in Offered(d) && o.optionID == d.pc.answer.optionID then
            x.outcome.Selected? && x.reason == SelectedOffered && x.option.Some? && x.option.value.optionID == d.pc.answer.optionID
          else x.outcome.Cancelled? && x.reason == InvalidSelection && x.diagnostic)
  {
    assert RequestOk(s.c, s.callbacks, r, s.requests[r]);
  }

  // ---- calls that end a turn -------------------------------------------------------------------------

  /** What ends the current turn, or every turn. */
  predicate EndsTurns(step: Step) {
    step.BeginTurn? || step.CloseTurnAdmission? || step.EndTurn? || step.CancelTurn? || step.Close?
  }

  lemma EndedIsOver(s: System, step: Step, g: nat)
    requires Inv(s) && Enabled(s, step) && EndsTurns(step) && g <= s.c.generation
    requires step.BeginTurn? || step.Close? || g == s.c.generation
    ensures IsOver(Apply(s, step).c, g)
  {
    if g in s.c.turns { assert TurnOk(s.c, g); }
  }

  /** After each of these calls no request of the turn that has not resolved by then is ever
      selected: of the current turn, and after BeginTurn and Close of any. */
  lemma EndedTurnsDecline(run: seq<System>, i: nat, j: nat, r: nat, step: Step)
    requires Run(run) && i < j < |run| && Enabled(run[i], step) && run[i + 1] == Apply(run[i], step) && EndsTurns(step)
    requires r in run[i].requests && !Resolved(run[i].requests[r].pc)
    requires step.BeginTurn? || step.Close? || run[i].requests[r].admission.generation == run[i].c.generation
    ensures r in run[j].requests && (Resolved(run[j].requests[r].pc) ==> run[j].requests[r].pc.resolution.outcome.Cancelled?)
  {
    InvAt(run, i);
    assert RequestOk(run[i].c, run[i].callbacks, r, run[i].requests[r]);
    EndedIsOver(run[i], step, run[i].requests[r].admission.generation);
    StepKeepsRequest(run[i], step, r);
    DeadTurnsDecline(run, i + 1, j, r);
  }

  /** They also cancel what those requests wait for: every entry of an ended turn that has not
      committed. */
  lemma EndedTurnsCancel(s: System, step: Step, e: nat)
    requires Inv(s) && Enabled(s, step) && EndsTurns(step) && e in s.c.pending && !s.c.pending[e].committed
    requires step.BeginTurn? || step.Close? || (s.c.pending[e].generation == s.c.generation && !s.c.closed && s.c.generation in s.c.registered)
    ensures var now := Apply(s, step).c; e in now.pending && now.pending[e].canceled
  {
  }

  // ---- the response, and the session -----------------------------------------------------------------

  /** A resolution records whether its response was written, and so does its diagnostic. */
  lemma DeliveryOfARun(run: seq<System>, i: nat, r: nat, ok: bool)
    requires Run(run) && i + 1 < |run| && Enabled(run[i], Deliver(r, ok)) && run[i + 1] == Apply(run[i], Deliver(r, ok))
    ensures r in run[i + 1].requests && Resolved(run[i + 1].requests[r].pc)
    ensures var (x, now) := (run[i].requests[r].pc.resolution, run[i + 1].requests[r].pc.resolution);
      now == x.(deliveryFailed := x.deliveryFailed || !ok, diagnostic := x.diagnostic || !ok)
  {
  }

  /** The coordinator stays bound to the session it was last bound to, and keeps its responder. */
  lemma SessionOfARun(run: seq<System>, i: nat)
    requires Run(run) && i + 1 < |run|
    ensures var (c, now) := (run[i].c, run[i + 1].c);
      && now.responder == c.responder
      && (now.sessionID != c.sessionID ==> exists id :: run[i + 1] == Apply(run[i], SetSessionID(id)) && now.sessionID == id)
  {
    Runs.StepAt(Init, Next, run, i + 1);
    var step :| Enabled(run[i], step) && run[i + 1] == Apply(run[i], step);
    OnlySetSessionBinds(run[i], step);
  }

  lemma OnlySetSessionBinds(s: System, step: Step)
    requires Enabled(s, step)
    ensures Apply(s, step).c.responder == s.c.responder
    ensures Apply(s, step).c.sessionID == if step.SetSessionID? then step.id else s.c.sessionID
  {
  }

  /** All of them but CancelTurn close the turn's admission for good, and it is marked as
      cancelled by CancelTurn, by Close and by the BeginTurn that finds it active. */
  lemma EndedTurnsEnd(s: System, step: Step, g: nat)
    requires Inv(s) && Enabled(s, step) && EndsTurns(step) && g in s.c.registered && (step.Close? || g == s.c.generation)
    ensures g in s.c.turns && g in Apply(s, step).c.turns
    ensures var (was, now) := (s.c.turns[g], Apply(s, step).c.turns[g]);
      && (if step.CancelTurn? then now.active == was.active && now.ending == was.ending else !now.active && now.ending)
      && now.canceled == (was.canceled || step.CancelTurn? || step.Close? || (step.BeginTurn? && was.active))
      && now.dispatches == was.dispatches
  {
    assert TurnOk(s.c, g);
  }
}

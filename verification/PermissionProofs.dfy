/**
 * The invariant of PermissionRuns holds in every reachable state: what a step does
 * to the coordinator, to the counts and to the other requests, then one lemma a
 * step, then induction over runs.
 */
module PermissionProofs {
  import opened Options
  import opened PermissionModel
  import opened PermissionRuns
  import opened Counting

  // ---- counting ------------------------------------------------------------------

  /** How rewriting one request moves the counts. */
  lemma CountRequest(requests: map<nat, Dispatch>, r: nat, d: Dispatch, g: nat)
    ensures |Bound(requests[r := d], g)|
         == |Bound(requests, g)| - Bit(r in requests && InFlight(requests[r], g)) + Bit(InFlight(d, g))
    ensures |Workers(requests[r := d])|
         == |Workers(requests)| - Bit(r in requests && IsWorker(requests[r])) + Bit(IsWorker(d))
  {
    CountOne(Bound(requests, g), Bound(requests[r := d], g), r);
    CountOne(Workers(requests), Workers(requests[r := d]), r);
  }

  lemma CountCallback(callbacks: map<nat, Callback>, e: nat, cb: Callback)
    ensures |Callbacks(callbacks[e := cb])|
         == |Callbacks(callbacks)| - Bit(e in callbacks && !callbacks[e].Exited?) + Bit(!cb.Exited?)
  {
    CountOne(Callbacks(callbacks), Callbacks(callbacks[e := cb]), e);
  }

  /** Rewriting a request that stays in flight, or out of it, keeps the counts. */
  lemma CountsKept(c: Coordinator, requests: map<nat, Dispatch>, callbacks: map<nat, Callback>, r: nat, d: Dispatch)
    requires CountsOk(c, requests, callbacks)
    requires r in requests && d.admission == requests[r].admission
    requires d.pc.Completed? == requests[r].pc.Completed?
    ensures CountsOk(c, requests[r := d], callbacks)
  {
    CountRequest(requests, r, d, 0);
    forall g | g in c.turns ensures c.turns[g].dispatches == |Bound(requests[r := d], g)| {
      CountRequest(requests, r, d, g);
    }
  }

  // ---- the other requests ----------------------------------------------------------

  /** Callbacks only start, and an answer sent stays. */
  ghost predicate CallbacksMove(cbs: map<nat, Callback>, cbs': map<nat, Callback>) {
    forall e :: e in cbs ==> e in cbs' && cbs'[e].owner == cbs[e].owner && (!cbs[e].Running? ==> !cbs'[e].Running? && cbs'[e].answer == cbs[e].answer)
  }

  /** The part of the coordinator a request depends on did not move under it. */
  ghost predicate StillFor(c: Coordinator, cbs: map<nat, Callback>, c': Coordinator, cbs': map<nat, Callback>, d: Dispatch) {
    && c.generation <= c'.generation && c.turns.Keys <= c'.turns.Keys
    && (HoldsEntry(d.pc) && d.pc.entry in c.pending ==>
          var e := d.pc.entry;
          && e in c'.pending
          && c'.pending[e].generation == c.pending[e].generation
          && c'.pending[e].committed == c.pending[e].committed
          && (c.pending[e].committed ==> c'.pending[e] == c.pending[e]))
    && CallbacksMove(cbs, cbs')
  }

  lemma RequestStill(c: Coordinator, cbs: map<nat, Callback>, c': Coordinator, cbs': map<nat, Callback>, r: nat, d: Dispatch)
    requires RequestOk(c, cbs, r, d) && StillFor(c, cbs, c', cbs', d)
    ensures RequestOk(c', cbs', r, d)
  {
  }

  lemma RequestsStill(c: Coordinator, cbs: map<nat, Callback>, c': Coordinator, cbs': map<nat, Callback>,
                      requests: map<nat, Dispatch>, r: nat, d: Dispatch)
    requires RequestsOk(c, requests, cbs)
    requires forall q :: q in requests && q != r ==> StillFor(c, cbs, c', cbs', requests[q])
    requires RequestOk(c', cbs', r, d)
    ensures RequestsOk(c', requests[r := d], cbs')
  {
  }

  /** A request moves without touching the coordinator. */
  lemma MoveKeeps(s: System, r: nat, pc: Pc)
    requires Inv(s) && At(s, r)
    requires !s.requests[r].pc.Completed? && !pc.Completed?
    requires RequestOk(s.c, s.callbacks, r, s.requests[r].(pc := pc))
    requires HoldsEntry(pc) ==> HoldsEntry(s.requests[r].pc) && pc.entry == s.requests[r].pc.entry
    ensures Inv(Move(s, r, pc))
  {
    CountsKept(s.c, s.requests, s.callbacks, r, s.requests[r].(pc := pc));
  }

  // ---- the steps of a request ------------------------------------------------------

  lemma AdmitCounts(c: Coordinator, requests: map<nat, Dispatch>, callbacks: map<nat, Callback>, r: nat, wire: Wire, forDispatch: bool)
    requires CountsOk(c, requests, callbacks) && r !in requests
    ensures var (c', a) := PermissionModel.Admit(c, forDispatch);
      CountsOk(c', requests[r := Dispatch(a, wire, Admitted, None)], callbacks)
  {
    var (c', a) := PermissionModel.Admit(c, forDispatch);
    var d := Dispatch(a, wire, Admitted, None);
    CountRequest(requests, r, d, 0);
    forall g | g in c.turns ensures c'.turns[g].dispatches == |Bound(requests[r := d], g)| {
      CountRequest(requests, r, d, g);
    }
  }

  lemma AdmitTurns(c: Coordinator, forDispatch: bool)
    requires TurnsOk(c)
    ensures var c' := PermissionModel.Admit(c, forDispatch).0;
      && TurnsOk(c') && c'.pending == c.pending && c'.nextID == c.nextID && c'.generation == c.generation
      && c'.turns.Keys == c.turns.Keys
      && forall g :: g in c.turns ==>
           c'.turns[g].ending == c.turns[g].ending && c'.turns[g].doneClosed == c.turns[g].doneClosed
  {
  }

  lemma EndsSame(c: Coordinator, c': Coordinator, ends: map<nat, EndCall>)
    requires EndsOk(c, ends) && c'.generation == c.generation && c'.turns.Keys == c.turns.Keys
    requires forall g :: g in c.turns ==>
      c'.turns[g].ending == c.turns[g].ending && (c.turns[g].doneClosed ==> c'.turns[g].doneClosed)
    ensures EndsOk(c', ends)
  {
  }

  lemma AdmitKeeps(s: System, r: nat, wire: Wire, forDispatch: bool)
    requires Inv(s) && !At(s, r)
    ensures Inv(AdmitStep(s, r, wire, forDispatch))
  {
    var t := AdmitStep(s, r, wire, forDispatch);
    var d := t.requests[r];
    AdmitCounts(s.c, s.requests, s.callbacks, r, wire, forDispatch);
    AdmitTurns(s.c, forDispatch);
    RequestsStill(s.c, s.callbacks, t.c, s.callbacks, s.requests, r, d);
    EndsSame(s.c, t.c, s.ends);
  }

  lemma RegisterTurns(c: Coordinator, a: Admission)
    requires TurnsOk(c)
    ensures var c' := PermissionModel.Register(c, a).0; TurnsOk(c') && c'.turns == c.turns
  {
  }

  lemma RegisterCounts(c: Coordinator, requests: map<nat, Dispatch>, callbacks: map<nat, Callback>, r: nat)
    requires CountsOk(c, requests, callbacks) && r in requests && requests[r].pc.Checked?
    requires forall e :: e in callbacks ==> e <= c.nextID
    requires PermissionModel.Register(c, requests[r].admission).1.Registered?
    ensures var e := c.nextID + 1;
      CountsOk(PermissionModel.Register(c, requests[r].admission).0,
               requests[r := requests[r].(pc := Waiting(e))], callbacks[e := Running(r)])
  {
    var e := c.nextID + 1;
    CountCallback(callbacks, e, Running(r));
    CountsKept(c, requests, callbacks, r, requests[r].(pc := Waiting(e)));
  }

  lemma RegisterIds(c: Coordinator, a: Admission, callbacks: map<nat, Callback>, r: nat)
    requires IdsOk(c, callbacks) && PermissionModel.Register(c, a).1.Registered?
    ensures IdsOk(PermissionModel.Register(c, a).0, callbacks[c.nextID + 1 := Running(r)])
  {
  }

  /** A new entry with its callback is nobody else's. */
  lemma NewEntryStill(c: Coordinator, a: Admission, callbacks: map<nat, Callback>, r: nat, q: nat, d: Dispatch)
    requires IdsOk(c, callbacks) && PermissionModel.Register(c, a).1.Registered? && RequestOk(c, callbacks, q, d)
    ensures StillFor(c, callbacks, PermissionModel.Register(c, a).0, callbacks[c.nextID + 1 := Running(r)], d)
  {
  }

  lemma RegisteredIsOk(c: Coordinator, callbacks: map<nat, Callback>, r: nat, d: Dispatch)
    requires RequestOk(c, callbacks, r, d) && d.pc.Checked? && PermissionModel.Register(c, d.admission).1.Registered?
    ensures RequestOk(PermissionModel.Register(c, d.admission).0, callbacks[c.nextID + 1 := Running(r)], r,
                      d.(pc := Waiting(c.nextID + 1)))
  {
  }

  lemma RegisterRequests(c: Coordinator, requests: map<nat, Dispatch>, callbacks: map<nat, Callback>, r: nat)
    requires RequestsOk(c, requests, callbacks) && IdsOk(c, callbacks) && r in requests && requests[r].pc.Checked?
    requires PermissionModel.Register(c, requests[r].admission).1.Registered?
    ensures var e := c.nextID + 1;
      RequestsOk(PermissionModel.Register(c, requests[r].admission).0,
                 requests[r := requests[r].(pc := Waiting(e))], callbacks[e := Running(r)])
  {
    var (c', now) := (PermissionModel.Register(c, requests[r].admission).0, callbacks[c.nextID + 1 := Running(r)]);
    RegisteredIsOk(c, callbacks, r, requests[r]);
    forall q | q in requests && q != r ensures StillFor(c, callbacks, c', now, requests[q]) {
      NewEntryStill(c, requests[r].admission, callbacks, r, q, requests[q]);
    }
    RequestsStill(c, callbacks, c', now, requests, r, requests[r].(pc := Waiting(c.nextID + 1)));
  }

  /** RegisterStep, when the slot was taken. */
  ghost function Taken(s: System, r: nat): System
    requires At(s, r)
  {
    var (a, e) := (s.requests[r].admission, s.c.nextID + 1);
    s.(c := PermissionModel.Register(s.c, a).0, requests := s.requests[r := s.requests[r].(pc := Waiting(e))],
       callbacks := s.callbacks[e := Running(r)])
  }

  lemma TakenRequests(s: System, r: nat)
    requires At(s, r) && s.requests[r].pc.Checked? && PermissionModel.Register(s.c, s.requests[r].admission).1.Registered?
    requires RequestsOk(s.c, s.requests, s.callbacks) && IdsOk(s.c, s.callbacks)
    ensures var t := Taken(s, r); RequestsOk(t.c, t.requests, t.callbacks) && IdsOk(t.c, t.callbacks)
  {
    RegisterRequests(s.c, s.requests, s.callbacks, r);
    RegisterIds(s.c, s.requests[r].admission, s.callbacks, r);
  }

  lemma TakenTurns(s: System, r: nat)
    requires At(s, r) && TurnsOk(s.c) && EndsOk(s.c, s.ends)
    ensures var t := Taken(s, r); TurnsOk(t.c) && EndsOk(t.c, t.ends)
  {
    RegisterTurns(s.c, s.requests[r].admission);
    EndsSame(s.c, Taken(s, r).c, s.ends);
  }

  lemma TakenCounts(s: System, r: nat)
    requires At(s, r) && s.requests[r].pc.Checked? && PermissionModel.Register(s.c, s.requests[r].admission).1.Registered?
    requires CountsOk(s.c, s.requests, s.callbacks) && IdsOk(s.c, s.callbacks)
    ensures var t := Taken(s, r); CountsOk(t.c, t.requests, t.callbacks)
  {
    RegisterCounts(s.c, s.requests, s.callbacks, r);
  }

  lemma RegisterTakes(s: System, r: nat)
    requires Inv(s) && At(s, r) && s.requests[r].pc.Checked?
    requires PermissionModel.Register(s.c, s.requests[r].admission).1.Registered?
    ensures Inv(RegisterStep(s, r))
  {
    TakenCounts(s, r);
    TakenRequests(s, r);
    TakenTurns(s, r);
    assert RegisterStep(s, r) == Taken(s, r);
  }

  lemma RegisterKeeps(s: System, r: nat)
    requires Inv(s) && At(s, r) && s.requests[r].pc.Checked?
    ensures Inv(RegisterStep(s, r))
  {
    if PermissionModel.Register(s.c, s.requests[r].admission).1.Registered? {
      RegisterTakes(s, r);
    } else {
      assert RequestOk(s.c, s.callbacks, r, s.requests[r]);
      MoveKeeps(s, r, RegisterStep(s, r).requests[r].pc);
    }
  }

  lemma CallbackKeeps(s: System, step: Step)
    requires Inv(s) && Enabled(s, step) && (step.CallbackSend? || step.CallbackExit?)
    ensures Inv(Apply(s, step))
  {
    var t := Apply(s, step);
    CountCallback(s.callbacks, step.e, t.callbacks[step.e]);
    forall g | g in t.c.turns ensures TurnOk(t.c, g) {
      assert TurnOk(s.c, g);
    }
    forall q | q in s.requests ensures RequestOk(t.c, t.callbacks, q, s.requests[q]) {
      RequestStill(s.c, s.callbacks, t.c, t.callbacks, q, s.requests[q]);
    }
  }

  /** Commit and Forget write one entry, which one request holds. */
  lemma EntryStepKeeps(s: System, t: System, r: nat)
    requires Inv(s) && At(s, r) && HoldsEntry(s.requests[r].pc)
    requires var e := s.requests[r].pc.entry;
      && t.c == s.c.(pending := t.c.pending)
      && t.c.pending.Keys <= s.c.pending.Keys
      && (forall x :: x in s.c.pending && x != e ==> x in t.c.pending && t.c.pending[x] == s.c.pending[x])
    requires t.callbacks == s.callbacks && t.ends == s.ends && At(t, r)
    requires t.requests == s.requests[r := t.requests[r]]
    requires t.requests[r].admission == s.requests[r].admission && !t.requests[r].pc.Completed?
    requires HoldsEntry(t.requests[r].pc) ==> t.requests[r].pc.entry == s.requests[r].pc.entry
    requires RequestOk(t.c, t.callbacks, r, t.requests[r])
    ensures Inv(t)
  {
    CountsKept(s.c, s.requests, s.callbacks, r, t.requests[r]);
    forall g | g in t.c.turns ensures TurnOk(t.c, g) {
      assert TurnOk(s.c, g);
    }
    assert RequestOk(s.c, s.callbacks, r, s.requests[r]);
    forall q | q in s.requests && q != r ensures StillFor(s.c, s.callbacks, t.c, t.callbacks, s.requests[q]) {
      assert RequestOk(s.c, s.callbacks, q, s.requests[q]);
    }
    RequestsStill(s.c, s.callbacks, t.c, t.callbacks, s.requests, r, t.requests[r]);
  }

  lemma CommitKeeps(s: System, r: nat)
    requires Inv(s) && At(s, r) && s.requests[r].pc.Answered? && s.requests[r].pc.entry in s.c.pending
    ensures Inv(CommitStep(s, r))
  {
    assert RequestOk(s.c, s.callbacks, r, s.requests[r]);
    EntryStepKeeps(s, CommitStep(s, r), r);
  }

  lemma ForgetKeeps(s: System, r: nat)
    requires Inv(s) && At(s, r) && s.requests[r].pc.Written?
    ensures Inv(ForgetStep(s, r))
  {
    assert RequestOk(s.c, s.callbacks, r, s.requests[r]);
    EntryStepKeeps(s, ForgetStep(s, r), r);
  }

  lemma CompleteTurns(c: Coordinator, a: Admission)
    requires TurnsOk(c)
    requires a.counted && a.generation in c.turns ==> 0 < c.turns[a.generation].dispatches
    ensures var c' := CompleteAdmission(c, a);
      && TurnsOk(c') && c'.generation == c.generation && c'.turns.Keys == c.turns.Keys
      && forall g :: g in c.turns ==>
           c'.turns[g].ending == c.turns[g].ending && (c.turns[g].doneClosed ==> c'.turns[g].doneClosed)
  {
  }

  lemma CompleteCounts(c: Coordinator, requests: map<nat, Dispatch>, callbacks: map<nat, Callback>, r: nat, pc: Pc)
    requires CountsOk(c, requests, callbacks) && r in requests && requests[r].pc.Responded? && pc.Completed?
    requires RequestOk(c, callbacks, r, requests[r])
    ensures CountsOk(CompleteAdmission(c, requests[r].admission), requests[r := requests[r].(pc := pc)], callbacks)
  {
    var d := requests[r].(pc := pc);
    var c' := CompleteAdmission(c, d.admission);
    CountRequest(requests, r, d, 0);
    forall g | g in c.turns ensures c'.turns[g].dispatches == |Bound(requests[r := d], g)| {
      CountRequest(requests, r, d, g);
    }
  }

  lemma BoundCounts(requests: map<nat, Dispatch>, r: nat)
    requires r in requests && InFlight(requests[r], requests[r].admission.generation)
    ensures 0 < |Bound(requests, requests[r].admission.generation)|
  {
    assert r in Bound(requests, requests[r].admission.generation);
  }

  lemma CompleteKeeps(s: System, r: nat)
    requires Inv(s) && At(s, r) && s.requests[r].pc.Responded?
    ensures Inv(CompleteStep(s, r))
  {
    var t := CompleteStep(s, r);
    var d := t.requests[r];
    assert RequestOk(s.c, s.callbacks, r, s.requests[r]);
    if d.admission.counted { BoundCounts(s.requests, r); }
    CompleteTurns(s.c, d.admission);
    CompleteCounts(s.c, s.requests, s.callbacks, r, d.pc);
    RequestsStill(s.c, s.callbacks, t.c, t.callbacks, s.requests, r, d);
    EndsSame(s.c, t.c, s.ends);
  }

  // ---- the lifecycle calls -----------------------------------------------------------

  ghost predicate TurnMoves(t: Turn, t': Turn) {
    && t'.dispatches == t.dispatches
    && (t'.active ==> t.active)
    && (t.canceled ==> t'.canceled)
    && (t.ending ==> t'.ending)
    && (t.doneClosed ==> t'.doneClosed)
  }

  ghost predicate EntryMoves(e: Entry, e': Entry) {
    && e'.generation == e.generation
    && e'.committed == e.committed
    && (e.canceled ==> e'.canceled)
    && (e.committed ==> e' == e)
  }

  /** All that requests in flight need to know of a lifecycle call: turns and entries
      only move towards their end, and a committed entry does not move. */
  ghost predicate LifecycleMove(c: Coordinator, c': Coordinator) {
    && c'.nextID == c.nextID && c'.callbacks == c.callbacks && c'.asyncDispatches == c.asyncDispatches
    && c.generation <= c'.generation
    && (c.closed ==> c'.closed)
    && c.turns.Keys <= c'.turns.Keys
    && (forall g :: g in c.turns ==> TurnMoves(c.turns[g], c'.turns[g]))
    && (forall g :: g in c'.turns && g !in c.turns ==> c.generation < g && c'.turns[g].dispatches == 0)
    && c'.pending.Keys == c.pending.Keys
    && (forall e :: e in c.pending ==> EntryMoves(c.pending[e], c'.pending[e]))
  }

  lemma BeginTurnMoves(c: Coordinator)
    requires TurnsOk(c)
    ensures var c' := PermissionModel.BeginTurn(c); TurnsOk(c') && LifecycleMove(c, c')
  {
    var c' := PermissionModel.BeginTurn(c);
    forall g | g in c'.turns ensures TurnOk(c', g) {
      if g in c.turns { assert TurnOk(c, g); }
    }
  }

  lemma OneTurnMoves(c: Coordinator, g: nat, turn: Turn)
    requires TurnsOk(c) && g in c.turns && TurnMoves(c.turns[g], turn) && TurnOk(c.(turns := c.turns[g := turn]), g)
    ensures var c' := c.(turns := c.turns[g := turn], pending := CancelPending(c.pending, false, g));
      TurnsOk(c') && LifecycleMove(c, c')
  {
    var c' := c.(turns := c.turns[g := turn], pending := CancelPending(c.pending, false, g));
    forall h | h in c'.turns ensures TurnOk(c', h) {
      assert TurnOk(c, h);
    }
  }

  lemma CloseTurnAdmissionMoves(c: Coordinator)
    requires TurnsOk(c)
    ensures var c' := PermissionModel.CloseTurnAdmission(c); TurnsOk(c') && LifecycleMove(c, c')
  {
    var g := c.generation;
    if Current(c, g) {
      assert TurnOk(c, g);
      OneTurnMoves(c, g, PermissionModel.SettleDone(c.turns[g].(active := false, ending := true)));
    }
  }

  lemma CancelTurnMoves(c: Coordinator)
    requires TurnsOk(c)
    ensures var c' := PermissionModel.CancelTurn(c); TurnsOk(c') && LifecycleMove(c, c')
  {
    var g := c.generation;
    if Current(c, g) {
      assert TurnOk(c, g);
      OneTurnMoves(c, g, c.turns[g].(canceled := true));
    }
  }

  lemma CloseMoves(c: Coordinator)
    requires TurnsOk(c)
    ensures var c' := PermissionModel.Close(c); TurnsOk(c') && LifecycleMove(c, c')
  {
  }

  lemma DropTurnMoves(c: Coordinator, g: nat)
    requires TurnsOk(c) && g in c.turns && c.turns[g].doneClosed
    ensures var c' := DropTurn(c, g); TurnsOk(c') && LifecycleMove(c, c')
  {
  }

  lemma SetSessionIDMoves(c: Coordinator, id: string)
    requires TurnsOk(c)
    ensures var c' := PermissionModel.SetSessionID(c, id); TurnsOk(c') && LifecycleMove(c, c')
  {
  }

  lemma LifecycleKeeps(s: System, c': Coordinator)
    requires Inv(s) && TurnsOk(c') && LifecycleMove(s.c, c')
    ensures Inv(s.(c := c'))
  {
  }

  predicate IsLifecycle(step: Step) {
    || step.BeginTurn? || step.CloseTurnAdmission? || step.EndTurn? || step.EndTurnReturn?
    || step.CancelTurn? || step.Close? || step.SetSessionID?
  }

  lemma LifecycleStepMoves(s: System, step: Step)
    requires Inv(s) && Enabled(s, step) && IsLifecycle(step)
    ensures var t := Apply(s, step); TurnsOk(t.c) && LifecycleMove(s.c, t.c)
  {
    match step
    case BeginTurn => BeginTurnMoves(s.c);
    case CloseTurnAdmission => CloseTurnAdmissionMoves(s.c);
    case EndTurn(_) => CloseTurnAdmissionMoves(s.c);
    case EndTurnReturn(w) => DropTurnMoves(s.c, s.ends[w].generation);
    case CancelTurn => CancelTurnMoves(s.c);
    case Close => CloseMoves(s.c);
    case SetSessionID(id) => SetSessionIDMoves(s.c, id);
  }

  lemma LifecycleStepKeeps(s: System, step: Step)
    requires Inv(s) && Enabled(s, step) && IsLifecycle(step)
    ensures Inv(Apply(s, step))
  {
    var t := Apply(s, step);
    LifecycleStepMoves(s, step);
    LifecycleKeeps(s, t.c);
    forall w | w in t.ends ensures EndOk(t.c, t.ends[w]) {
      if step.EndTurn? && w == step.w {
        var g := s.c.generation;
        if g in s.c.turns { assert TurnOk(s.c, g) && TurnOk(t.c, g); }
      } else {
        assert EndOk(t.c, s.ends[w]);
      }
    }
  }

  predicate IsMove(step: Step) {
    step.Check? || step.TakeAnswer? || step.SeeCancel? || step.Deliver?
  }

  /** Where such a step takes its request. */
  ghost function MovedTo(s: System, step: Step): Pc
    requires Enabled(s, step) && IsMove(step)
  {
    Apply(s, step).requests[step.r].pc
  }

  lemma MoveIsAllowed(s: System, step: Step)
    requires Enabled(s, step) && IsMove(step) && RequestOk(s.c, s.callbacks, step.r, s.requests[step.r])
    ensures var (d, pc) := (s.requests[step.r], MovedTo(s, step));
      && Apply(s, step) == Move(s, step.r, pc)
      && !d.pc.Completed? && !pc.Completed?
      && RequestOk(s.c, s.callbacks, step.r, d.(pc := pc))
      && (HoldsEntry(pc) ==> HoldsEntry(d.pc) && pc.entry == d.pc.entry)
  {
  }

  lemma MoveStepKeeps(s: System, step: Step)
    requires Inv(s) && Enabled(s, step) && IsMove(step)
    ensures Inv(Apply(s, step))
  {
    MoveIsAllowed(s, step);
    MoveKeeps(s, step.r, MovedTo(s, step));
  }

  lemma StepKeepsInv(s: System, step: Step)
    requires Inv(s) && Enabled(s, step)
    ensures Inv(Apply(s, step))
  {
    match step
    case Admit(r, wire, forDispatch) => AdmitKeeps(s, r, wire, forDispatch);
    case Register(r) => RegisterKeeps(s, r);
    case Commit(r) => CommitKeeps(s, r);
    case Forget(r) => ForgetKeeps(s, r);
    case Complete(r) => CompleteKeeps(s, r);
    case CallbackSend(_, _) => CallbackKeeps(s, step);
    case CallbackExit(_) => CallbackKeeps(s, step);
    case _ => if IsMove(step) { MoveStepKeeps(s, step); } else { LifecycleStepKeeps(s, step); }
  }

  lemma NextKeepsInv(s: System, t: System)
    requires Inv(s) && Next(s, t)
    ensures Inv(t)
  {
    var step :| Enabled(s, step) && t == Apply(s, step);
    StepKeepsInv(s, step);
  }

  lemma InitHasInv(s: System)
    requires Init(s)
    ensures Inv(s)
  {
  }

  lemma InvIsInductive()
    ensures Runs.Inductive(Init, Next, Inv)
  {
    forall s | Init(s) ensures Inv(s) { InitHasInv(s); }
    forall s, t | Inv(s) && Next(s, t) ensures Inv(t) { NextKeepsInv(s, t); }
  }

  /** The invariant holds in every state of every run. */
  lemma InvAt(run: seq<System>, i: nat)
    requires Run(run) && i < |run|
    ensures Inv(run[i])
  {
    InvIsInductive();
    Runs.Holds(Init, Next, Inv, run, i);
  }
}
